# Rebilly token client: the token-request pipeline and the lead-source parser

This project models two parts of the browser-side Rebilly payment-token
client in Dafny and proves properties of the model.

- **The token handler** (`src/handler.js`, module `TokenHandler`). The
  `Handler` class holds the endpoint, the authorization value and the
  enrichment modules. `createToken` turns a payload into a token request.
  The payload is an object literal, or a form whose `input` controls carry a
  `data-rebilly` attribute. The steps are:
  - a form is serialised into `paymentInstrument` and `billingAddress`;
  - the module fragments are merged left to right and spread over the data
    (with the corrected module merge; see Findings);
  - a legacy method name is rewritten, or a missing method is detected from
    the instrument's field names;
  - the request configuration is built;
  - the transport's reply is normalised into the object that the caller's
    callback receives.

  The handler refuses, before any transport call, when no authorization is set
  and when the data has neither a method nor a payment instrument.
- **The lead-source module** (`src/modules/lead-sources.js`, module
  `LeadSources`). It reads the five `utm_*` parameters of the page's query
  string into a `leadSource` object.

`Js` holds the JavaScript values both parts work on: null, booleans, numbers,
strings, arrays and objects (maps from property name to value). It also holds
JavaScript truthiness and a `DataObject` class for an object that is updated
in place through a reference.

How the source's operations are modelled:
- The handler's fields are fields of the class `TokenHandler.Handler`. The
  constructor and the two setters are the only methods that change them.
- `convertLegacyMethods` and `detectMethod` overwrite `data.method` in place.
  They are `Handler` methods that take a `DataObject` argument. Each loops over its two-entry table, as
  the source's `forEach` does, and is proved equal to a fold over that table
  (`ConvertLegacy`, `Detect`). The lemmas then state what those folds do.
- `serializeForm` is a method whose loop fills the two objects. It is proved
  equal to `FormData`, the left fold over the controls.
- `processModules`' `reduce` is the fold `MergeAll`.
- `leadSources` is a chain of pure functions: remove the first `?`, split on
  `&`, split each field on `=`, filter by `UtmKey`, and fold into a map.
- The transport is not called. `CreateToken` takes the transport's reply as a
  parameter. It returns either the refusal, or the request it issues together
  with the one result it delivers to the callback.

The model follows the code as written:
- only `input` controls are read (no `select`);
- a control named `__proto__` stores nothing, since the assignment reaches
  the inherited `__proto__` setter, which ignores a string;
- empty values are copied, not dropped;
- both objects are always returned, never null;
- there is no status-201 check and no JSON parsing of the body, although the
  source's tests pass a JSON string as the body and expect parsed data
  (test/handler.spec.js:48);
- there is no client-identification header, although the source's tests expect
  a `reb-api-consumer` header (test/handler.spec.js:34);
- the two refusals are thrown errors (`TokenError`), although the source's tests
  expect `createToken` to return normally in both cases
  (test/handler.spec.js:91-107);
- an instrument with no card or ACH field resolves with no `method`, and the
  request is still issued without one (`UnknownInstrumentSentWithoutMethod`).

## Model

| member | source | states |
|---|---|---|
| `TokenHandler.Handler.constructor` | src/handler.js:7-15 | stores the modules and the endpoint as given; authorization starts as null |
| `TokenHandler.Handler.SetEndpoint` | src/handler.js:34-36 | replaces only the endpoint; null (no argument) is stored as null; authorization and modules unchanged |
| `TokenHandler.Handler.SetAuth` | src/handler.js:42-44 | replaces only the authorization; null (no argument) is stored as null; endpoint and modules unchanged |
| `TokenHandler.Handler.ProcessModules` | src/handler.js:21-28 | the merge of the handler's fragments: `{}` with no modules, every key of any fragment present, a collision resolved by the last fragment having the key |
| `TokenHandler.MergeAllKeys` | src/handler.js:24-27 | a key is in the merged object exactly when some fragment has it |
| `TokenHandler.MergeAllLastWins` | src/handler.js:24-27 | a key's value comes from the last fragment that has the key |
| `TokenHandler.MergeAllSpec` | src/handler.js:24-27 | both merge properties for every key |
| `TokenHandler.MergeAllAppend` | src/handler.js:24-27 | the left-to-right merge of a concatenation is the merge of the two parts' merges |
| `TokenHandler.MergeExample` | src/handler.js:24-27 | `[{foo: bar}, {foo: baz, hello: world}]` merges to `{foo: baz, hello: world}` |
| `TokenHandler.Handler.SerializeForm` | src/handler.js:86-110 | the loop over the controls returns exactly the fold `FormData` of the form |
| `TokenHandler.FormSideKeys` | src/handler.js:96-108 | a field is in `paymentInstrument` (or `billingAddress`) exactly when some control has a `data-rebilly` naming it, other than empty or `__proto__`, and the name is (or is not) one of the 7 instrument fields; controls without the attribute, with an empty one, or named `__proto__` store nothing |
| `TokenHandler.FormSideLastWins` | src/handler.js:96-108 | a field's value is the verbatim value of the last kept control that names it |
| `TokenHandler.FormPartition` | src/handler.js:100-105 | every kept control's name is in exactly one of the two objects; no name is in both |
| `TokenHandler.ProtoFieldNotStored` | src/handler.js:103-105 | a control named `__proto__` stores nothing: assigning a string to `billingAddress.__proto__` reaches the inherited setter, which ignores it |
| `TokenHandler.FormDataShape` | src/handler.js:94-109 | the result always has both objects, never null, and every value in them is some kept control's value copied verbatim |
| `TokenHandler.InstrumentFieldsAreVocabularies` | src/handler.js:87-92 | the serialiser's 7 instrument fields are exactly the card and ACH detection vocabularies |
| `TokenHandler.Handler.ConvertLegacyMethods` | src/handler.js:158-168 | the in-place loop leaves `data` equal to `ConvertLegacy` of its old contents |
| `TokenHandler.ConvertLegacyEffect` | src/handler.js:158-168 | `payment_card` becomes `payment-card`, `bank_account` becomes `ach`; any other method and every other property is unchanged |
| `TokenHandler.ConvertLegacyClears` | src/handler.js:158-168 | after conversion the method is neither legacy name |
| `TokenHandler.ConvertLegacyIdempotent` | src/handler.js:158-168 | converting twice gives the same result as converting once |
| `TokenHandler.Handler.DetectMethod` | src/handler.js:174-187 | the in-place loop leaves `data` equal to `Detect` of its old contents; the instrument must be present and not null, since `Object.keys` throws otherwise |
| `TokenHandler.DetectEffect` | src/handler.js:174-187 | a truthy method is kept; otherwise any card field gives `payment-card`, else any ACH field gives `ach`, else nothing changes; card wins when both vocabularies appear |
| `TokenHandler.DetectExamples` | src/handler.js:174-187 | `{pan}` gives `payment-card`, `{routingNumber}` with a null method gives `ach`, `{foo}` leaves a null method null |
| `TokenHandler.ResolveFails` | src/handler.js:68-77 | resolution fails, with the missing-method error, exactly when there is neither a truthy method nor a truthy payment instrument |
| `TokenHandler.UnknownInstrumentSentWithoutMethod` | src/handler.js:72-73 | an instrument with no card or ACH field resolves to the data unchanged, so a request without `method` is still issued |
| `TokenHandler.ResolvedHasNoLegacyMethod` | src/handler.js:67-77 | a resolved request never carries a legacy method name, and resolution changes no property other than `method` |
| `TokenHandler.Handler.GetConfig` | src/handler.js:117-127 | method `post`, `json` set, `uri` the current endpoint, header `reb-auth` the current authorization, body the data; reads the handler and changes nothing |
| `TokenHandler.Handler.HandleResponse` | src/handler.js:134-152 | the delivered object copies `xhr` and `status` from the response; a transport error gives `error` true, null data and the error's message; otherwise `error` false, the body as data and `success` |
| `TokenHandler.NormalisedUnique` | src/handler.js:134-152 | a reply determines exactly one delivered result |
| `TokenHandler.Handler.CreateToken` | src/handler.js:52-79 | no authorization: refusal; no truthy method and no truthy instrument: refusal; a refusal issues no request and delivers nothing; otherwise one request built from the resolved data (with the corrected module merge; see Findings) and one normalised result; an issued body never carries a legacy method name |
| `TokenHandler.RefusalScenarios` | src/handler.js:52-77 | with authorization unset, and with `{bad: data}`, `createToken` refuses with the matching error |
| `TokenHandler.ModuleDataDroppedAsWritten` | src/handler.js:65-66 | as written, a module returning `{foo: bar}` contributes nothing to the request data |
| `TokenHandler.RequestDataCarriesModules` | src/handler.js:65-66 | with the merge in place, every module key reaches the request, a later module wins over an earlier one, any module wins over the base data, and base keys no module sets are kept |
| `LeadSources.UtmFieldsArePrefixed` | src/modules/lead-sources.js:2-9 | the five recognised names are exactly `utm_` followed by one of source, medium, campaign, term, content |
| `LeadSources.RemoveFirst` | src/modules/lead-sources.js:13 | only the first `?` is removed, wherever it is; a string without `?` is unchanged |
| `LeadSources.Split` | src/modules/lead-sources.js:14 | splitting gives at least one piece and no piece contains the separator |
| `LeadSources.JoinSplit` | src/modules/lead-sources.js:14 | joining the pieces with the separator gives back the input |
| `LeadSources.SplitJoin` | src/modules/lead-sources.js:14 | splitting a join of separator-free pieces gives back the pieces |
| `LeadSources.FieldName` | src/modules/lead-sources.js:16-18 | a field's name contains no `=` |
| `LeadSources.FieldNameIsPrefix` | src/modules/lead-sources.js:16-18 | a field's name is a prefix of the field |
| `LeadSources.BareFieldName` | src/modules/lead-sources.js:16-18 | a field without `=` is its own name, so a bare `utm_source` is kept (with a null value) |
| `LeadSources.FieldValueShape` | src/modules/lead-sources.js:16-22 | the value is null exactly when the field has no `=`; otherwise it is the text between the first and the second `=`, undecoded |
| `LeadSources.UtmKeySpec` | src/modules/lead-sources.js:17-23 | a name is kept exactly when it is, case-sensitively and whole, `utm_` followed by one of the five short names, and its key is the name without the prefix |
| `LeadSources.CollectKeysAreShort` | src/modules/lead-sources.js:21-26 | every key of `leadSource` is one of source, medium, campaign, term, content |
| `LeadSources.CollectKeys` | src/modules/lead-sources.js:15-26 | a key is present exactly when some field carries its `utm_` name; all other fields are discarded |
| `LeadSources.CollectLastWins` | src/modules/lead-sources.js:21-26 | when a name appears more than once the last occurrence's value wins |
| `LeadSources.LeadSourcesOf` | src/modules/lead-sources.js:10-29 | the result is always `{leadSource}`; `leadSource` is null exactly when there is no window, otherwise the collected fields of the query |
| `LeadSources.IrrelevantQuery` | src/modules/lead-sources.js:12-26 | with a window and no recognised field in the query, `leadSource` is `{}` |
| `LeadSources.EmptyQuery` | src/modules/lead-sources.js:12-26 | the empty query and a bare `?` give `leadSource` `{}` |

## Findings

| source | as written | input that shows it | evidently intended | confidence | as-written member | corrected member |
|---|---|---|---|---|---|---|
| src/handler.js:65-66 | `moduleData` is the pending Promise of an immediately invoked async function. Spreading a Promise adds no property, so no module output reaches the request. | modules resolving to `{foo: "bar"}` and payload `{method: "ach"}`: the request body has no `foo` | the merged module fragments are spread over the base data | high; not executed | `TokenHandler.ModuleDataDroppedAsWritten` (about `TokenHandler.RequestDataAsWritten`) | `TokenHandler.RequestDataCarriesModules` (about `TokenHandler.RequestData`, which `CreateToken` uses) |

## Left out

- The transport call `xhr` (src/handler.js:1, 78) is network I/O. `CreateToken` returns the configuration it would hand to the transport, and it takes the transport's completion arguments as the `Reply` parameter. The callback is modelled as the one `TokenResult` returned, so "called exactly once" holds by construction.
- `Promise.all` and the async functions are not modelled. Each module is represented by the fragment it resolves to, and the handler keeps those fragments. A module that returns different data on each call is not modelled. Neither is a module that throws: as written, its rejection goes unhandled and does not abort `createToken`, because the promise built at src/handler.js:65 is never awaited; with the corrected merge it would abort `createToken`.
- `Handler.GetConfig`: the body is the object handed to `JSON.stringify`, not the serialised string. The serialiser and its key order are not modelled.
- The DOM is not modelled. `getElementsByTagName('input')`, `hasAttribute` and `getAttribute('data-rebilly')` are replaced by a sequence of `Control` records in document order, each carrying the attribute's value (if any) and the control's value.
- The `Object.prototype.isPrototypeOf` test is replaced by the tagged `Payload`. In a browser, a form element also passes that test, and the collection returned by `getElementsByTagName` has no `forEach`. The tag takes the branch that the source's comment intends.
- `console.log` in `detectMethod` is left out.
- `InstrumentKeys`: for a string or an array, `Object.keys` returns its indices. The model returns no keys for these values. This changes nothing for detection, because no index is a vocabulary name.
- Numbers are integers. NaN and fractional values, and therefore the falsiness of NaN, are not modelled.
- The thrown `Error` objects are modelled as `TokenError` values. `TokenError.Message` holds their texts. The exception mechanism itself is not modelled.
- `leadSources`: the global `window` is modelled as an optional query string, where `None` means that `window` is falsy. In a runtime where `window` is not declared at all, the source throws a `ReferenceError`; that case is not modelled.
- `leadSources`: `name.replace('utm_', '')` is modelled as dropping the first four characters. The filter only lets through names that start with that prefix, so removing the first occurrence is the same thing.
- src/modules/fingerprint.js is not part of this model: it wraps the external `fingerprintjs2` library.
- src/rebilly.js is not part of this model: it is a facade that fixes the default endpoint and delegates to the handler. Its `setPublishableKey` calls a method that `Handler` does not define.
- The validators (Luhn checksum, card number, expiry, CVV, name and address patterns) are not part of this model. Their implementation, src/validate.js, is not among the modelled files.
- The build configuration (webpack.config.js) is not part of this model.
