# Account entities and endpoint response parsing of the OANDA v20 Python client

This project models the account module of the v20 REST client (`src/v20/account.py`)
and proves properties of the model in Dafny.

The module has two halves:

- **Entity rehydration.** `Account`, `AccountState`, `AccountProperties`, `AccountSummary`
  and `AccountChanges` are value objects built from a JSON object. Each class's
  `from_dict(data, ctx)` takes a shallow copy of the dict. It then rewrites the few
  "special" keys whose value is not `None`: decimal fields go through
  `ctx.convert_decimal_number`, and list fields become lists of sibling entities
  (orders, trades, positions, transactions) decoded through `ctx`. Finally it calls
  the constructor, which reads every declared field with `kwargs.get`.
- **Response parsing.** `EntitySpec.list`, `get`, `summary`, `instruments`, `configure` and
  `changes` receive the response object from the transport.
  - A response whose content type is missing or not JSON is returned untouched.
  - Otherwise `parsed_body` is built from `{}`. The branch is chosen by
    `str(response.status)`: the 200 table, `configure`'s 400 table, or the standard
    error response with `errorCode`/`errorMessage`.
  - The result is stored in `response.body`.

Layout:

- `json.dfy` (`Json`): decoded JSON values. `JNull` is Python's `None`.
- `rules.dfy` (`Rules`): the two shapes the module repeats.
  - `MapEach` is a list comprehension over a JSON list.
  - `ApplyRule`/`ApplyFrom`/`Apply` are a run of `if m.get(key) is not None: out[key] = convert(m[key])`
    statements in source order, where the first exception aborts.
  - Exceptions are the `Failure` arm of `Result`.
- `context.dfy` (`Context`): `ctx` as a `Catalog`. It holds an arbitrary decimal converter
  and an arbitrary decoder per sibling entity type, both of which may raise.
- `account_entities.dfy` (`AccountEntities`): declared fields, the rewrite schedule of each
  `from_dict`, the constructor, and the functional `FromDict`.
- `account_from_dict.dfy` (`AccountFromDict`): the five `from_dict` methods, statement by
  statement and ending in `Entity(**data)` as Python runs it. Each is proved equal to
  `FromDictAsWritten`, and equal to `FromDict` on every input without a key named "self".
- `from_dict_facts.dfy` (`FromDictFacts`): `from_dict`'s properties. They are stated against
  reference tables of decimal keys and list keys that are written independently of the
  schedule.
- `status.dfy` (`Status`): `str` of an integer and its injectivity.
- `response_parsing.dfy` (`ResponseParsing`): the content-type gate, the tables chosen by
  status, and `ParseResponse`. `ctx.account` is taken to be this module's `EntitySpec`, whose
  class attributes are this module's own entity classes, so a key the tables mark `Own` or
  `OwnList` is decoded with `FromJson`, this module's `from_dict`.
- `response_facts.dfy` (`ResponseFacts`): the properties of the parsed body, against
  reference maps from response key to conversion.
- `entity_spec.dfy` (`AccountApi`): the `Response` object and the `EntitySpec` class. Its six
  methods update `response.body` in place.

## Model

| member | source | states |
|---|---|---|
| `Rules.MapEachSpec` | src/v20/account.py:249-253 | A list comprehension keeps length and order: element i of the result is the decoder applied to element i. It raises exactly when some element's decoder raises, with the leftmost element's exception. |
| `Rules.ApplyFromSpec` | src/v20/account.py:234-265 | A run of guarded statements from position `from` on: the result's keys are the old keys plus the rule keys that are set. Untouched keys keep their values. A set rule key holds its conversion. The run raises exactly when a conversion does, with the first one's exception. |
| `Rules.ApplySpec` | src/v20/account.py:234-265 | The same for the whole run. |
| `Rules.ApplyTabulated` | src/v20/account.py:968-981 | A run started from `{}` and read through a reference table: a key is present exactly when the table names it and it is set in the JSON. It holds the tabled conversion, and the run raises exactly when such a conversion does. |
| `Context.DecodeListSpec` | src/v20/account.py:249-253 | A nested list field decodes element by element through `ctx`, with the same length and order. A non-list raises. |
| `AccountEntities.ConstructIgnoresUndeclared` | src/v20/account.py:444-464 | Keys the constructor does not declare make no difference to the entity. |
| `AccountEntities.RehydrateSpec` | src/v20/account.py:224-267 | `from_dict` keeps exactly the input's keys. A key not rewritten passes through. A rewritten key holds its conversion. It raises exactly when some scheduled conversion of a set key raises. |
| `AccountEntities.FromJson` | src/v20/account.py:232 | `from_dict` on a value that is not a JSON object raises. On success, the entity has the kind's declared fields. |
| `AccountEntities.AsWrittenAgrees` | src/v20/account.py:267 | On an input without a key "self", `from_dict` as written and as intended give the same result or raise the same exception. They also agree whenever a rewrite raises. |
| `AccountEntities.SelfKeyRaises` | src/v20/account.py:467-478 | With the rewrites succeeding, `from_dict` as written raises exactly when the input has a key "self". Otherwise it agrees with the intended `from_dict`. |
| `AccountEntities.SelfKeyExample` | src/v20/account.py:467-478 | The account-properties object `{"id": ..., "self": ...}` makes the written code raise. The intended code builds the entity with its `id`. |
| `AccountFromDict.Rewrite` | src/v20/account.py:234-237 | One guarded statement computes `ApplyRule` for its schedule entry. If it raises, the whole `from_dict` raises with that exception. Otherwise the remaining statements start from the new copy. |
| `AccountFromDict.AccountFromDict` | src/v20/account.py:224-267 | `Account.from_dict` computes `FromDictAsWritten(Account, data, ctx)`: the same result, or the same exception, including the TypeError on a key "self". On an input without a key "self" this is `FromDict(Account, data, ctx)`. |
| `AccountFromDict.AccountStateFromDict` | src/v20/account.py:383-421 | `AccountState.from_dict` computes `FromDictAsWritten(AccountState, data, ctx)`, and `FromDict(AccountState, data, ctx)` on an input without a key "self". |
| `AccountFromDict.AccountPropertiesFromDict` | src/v20/account.py:467-478 | `AccountProperties.from_dict` computes `FromDictAsWritten(AccountProperties, data, ctx)`, and `FromDict(AccountProperties, data, ctx)` on an input without a key "self". |
| `AccountFromDict.AccountSummaryFromDict` | src/v20/account.py:676-701 | `AccountSummary.from_dict` computes `FromDictAsWritten(AccountSummary, data, ctx)`, and `FromDict(AccountSummary, data, ctx)` on an input without a key "self". |
| `AccountFromDict.AccountChangesFromDict` | src/v20/account.py:779-843 | `AccountChanges.from_dict` computes `FromDictAsWritten(AccountChanges, data, ctx)`, and `FromDict(AccountChanges, data, ctx)` on an input without a key "self". |
| `FromDictFacts.StatementsAgree` | src/v20/account.py:234-265 | A scheduled statement converts to a decimal exactly when its key is a decimal key of the entity. A list statement decodes the entity type the list table gives. |
| `FromDictFacts.TablesScheduled` | src/v20/account.py:383-419 | Every decimal key and every list key of the entity has its statement. |
| `FromDictFacts.TablesDeclared` | src/v20/account.py:293-380 | Every decimal and list key is a declared constructor field. |
| `FromDictFacts.RehydratePassThrough` | src/v20/account.py:779-843 | `from_dict` keeps exactly the input's keys. A key that is not special, or that is absent or `None`, reaches the constructor unchanged. |
| `FromDictFacts.RehydrateDecimals` | src/v20/account.py:234-247 | Decimal conversion applies exactly to the set keys among the entity's decimal keys. These are marginRate, marginCloseoutPercent and marginCallPercent for Account and AccountSummary, and the two percents for AccountState. Each holds what `convert_decimal_number` returned. |
| `FromDictFacts.RehydrateLists` | src/v20/account.py:249-265 | A set list key holds a list of the tabled sibling type, one element per JSON element, in order. |
| `FromDictFacts.RehydrateRaises` | src/v20/account.py:383-421 | `from_dict` raises exactly when a set decimal key fails to convert or a set list key fails to decode. |
| `FromDictFacts.PropertiesUnchanged` | src/v20/account.py:467-478 | `AccountProperties.from_dict` rewrites nothing: the constructor receives a plain copy. |
| `FromDictFacts.FromDictFields` | src/v20/account.py:502-673 | The entity has exactly its declared fields. A field absent or `None` in the input is `None`. A declared field that is not special keeps the input's value. |
| `FromDictFacts.FromDictDecimals` | src/v20/account.py:676-701 | In the returned entity, a set decimal field holds the converted decimal. |
| `FromDictFacts.FromDictLists` | src/v20/account.py:726-843 | In the returned entity, a set list field holds the decoded list. |
| `Status.DigitsInjective` | src/v20/account.py:898 | Different natural numbers have different decimal texts. |
| `Status.StatusTextInjective` | src/v20/account.py:898 | `str` is injective on integers. |
| `Status.StatusIs` | src/v20/account.py:1204-1216 | `str(status) == "200"` holds exactly for status 200, and likewise for 400. |
| `ResponseFacts.TableForStatus` | src/v20/account.py:1204-1248 | The branch depends on the status number: 200 selects the success table, 400 selects `configure`'s reject table, and anything else selects the standard error response. |
| `ResponseFacts.ContentGate` | src/v20/account.py:885-889 | A missing or non-JSON content type leaves the response unparsed. A JSON one always replaces the body unless a decoder raises. |
| `ResponseFacts.SuccessBody` | src/v20/account.py:1305-1325 | On 200, the body holds exactly the endpoint's keys that are set, each converted as tabled, and never `errorCode` or `errorMessage`. It raises exactly when such a conversion raises. |
| `ResponseFacts.RejectBody` | src/v20/account.py:1216-1237 | On a 400 from `configure`, the body holds exactly the set keys among configureRejectTransaction, lastTransactionID, errorCode and errorMessage, and never configureTransaction. It raises exactly when the reject transaction fails to decode. |
| `ResponseFacts.ErrorBody` | src/v20/account.py:908-916 | Any other status never raises. The body holds errorCode and errorMessage exactly when each is not `None`, copied as they came, and nothing else. |
| `ResponseFacts.OwnEntity` | src/v20/account.py:968-974 | On 200, a key decoded with one of this module's entities holds what that entity's `from_dict` builds from the JSON object. |
| `ResponseFacts.ListedAccounts` | src/v20/account.py:898-906 | On 200 from `list`, `accounts` holds one AccountProperties per JSON element, in order. |
| `AccountApi.EntitySpec.constructor` | src/v20/account.py:859-860 | The spec keeps the `ctx` it was given. |
| `AccountApi.EntitySpec.Respond` | src/v20/account.py:885-920 | The shared tail of every endpoint. If parsing raises, `response.body` is unchanged. An unparsed response keeps its body. Otherwise `response.body` is the parsed body. On success the same response is returned. |
| `AccountApi.EntitySpec.List` | src/v20/account.py:885-920 | `list` after the transport call: `Answered` by `ParseResponse` for the List table. |
| `AccountApi.EntitySpec.Get` | src/v20/account.py:955-995 | `get`: `Answered` for the Get table. |
| `AccountApi.EntitySpec.Summary` | src/v20/account.py:1028-1068 | `summary`: `Answered` for the Summary table. |
| `AccountApi.EntitySpec.Instruments` | src/v20/account.py:1111-1146 | `instruments`: `Answered` for the Instruments table. |
| `AccountApi.EntitySpec.Configure` | src/v20/account.py:1191-1251 | `configure`: `Answered` for the Configure tables (200 and 400). |
| `AccountApi.EntitySpec.Changes` | src/v20/account.py:1292-1339 | `changes`: `Answered` for the Changes table. |

## Left out

- Request building and the transport are not modelled: `Request`, path and query parameters, the `EntityDict` body of `configure`, and `ctx.request`. Each endpoint method receives the response the transport returned.
- `json.loads(response.raw_body)` is not modelled. `Response.payload` is the decoded JSON object, so a malformed body, or one that is not an object, is outside the model.
- `ctx.convert_decimal_number` and the `from_dict` methods of the trade, position, order, transaction and primitives modules are not part of this model. They are arbitrary functions that either return a value or raise, so no claim is made about decimal arithmetic or precision.
- `BaseEntity`, the `_summary_format`/`_name_format`/`_properties` metadata, the class aliases on `EntitySpec`, and the other attributes of the response object (headers, reason, raw body) are not modelled.
- Context.DecodeListSpec: iterating a value that is not a JSON list is modelled as raising. Python iterates a string's characters or a dict's keys, so an empty string or empty object yields `[]`, and other strings or objects fail only inside the child decoder.
- Exceptions are collapsed into `Raised`. No claim is made about which Python exception class is raised, and the code attaches no field name to a conversion error.
- Python dicts are modelled as values. `from_dict` cannot modify its argument because the model has no aliasing. The sharing of nested objects between the argument and the shallow copy is not represented.
- `AccountFromDict.Rewrite` reads the value to convert from the argument rather than from the copy. The two agree because every key is rewritten at most once.
- `AccountApi.EntitySpec.Respond` factors out the tail that the source repeats in each of the six methods.
- An absent declared field and an explicit `null` both read as `None`, so the two cannot be told apart. The guards test `data.get(key) is not None` and the constructors read `kwargs.get(field)`.
- `ResponseParsing.ConvertBodyField` decodes `Own` and `OwnList` keys with the corrected `FromJson` of the Findings row. An account object with a key "self" inside a response makes the source raise TypeError, where the model builds the entity.
- Entities are immutable values. The Python objects could be mutated after construction.
- `response.status` is assumed to be an integer.

## Findings

| source | as written | input that shows it | evidently intended | confidence | as-written member | corrected member |
|---|---|---|---|---|---|---|
| src/v20/account.py:467-478 | `from_dict` ends with `AccountProperties(**data)`, and the other four entities do the same. Every key of the JSON object becomes a keyword argument, so a key named "self" collides with the constructor's own `self` parameter and raises TypeError. | `{"id": "101-004-1234567-001", "self": "/v3/accounts/101-004-1234567-001"}` given to `AccountProperties.from_dict` | The constructor ignores keys it does not declare and returns the entity with `id` set and the other fields `None`. | not executed; medium | `AccountEntities.SelfKeyExample` (exhibits the failure of `AccountEntities.FromDictAsWritten`, which the five `AccountFromDict` methods compute) | `AccountEntities.ConstructIgnoresUndeclared` (proved about `AccountEntities.Construct`, which `FromDict`, `FromJson` and the endpoint parsing use) |
