# Schema validators of an API conformance test suite

The suite sends HTTP requests to a remote posts/users service and asserts on
the answers. Its only logic of its own is the set of schema validators in
`utils/helpers.py`. These validators decide whether a decoded JSON document
has the keys a post or a user must have:

- `validate_response_schema(data, fields)`: every listed name is `in` the data.
- `validate_post_schema(post)`: the four post keys are present, `userId` and
  `id` are `int`, and `title` and `body` are `str`.
- `validate_user_schema(user)`: the eight user keys are present, then the
  keys of the nested `address`, `address.geo` and `company` values.

The model has two modules.

- `PyJson` (`pyjson.dfy`) holds the decoded JSON value and the Python
  built-ins the validators use, with Python's own behaviour:
  - `in` tests keys on a dict, elements on a list and substrings on a str.
    On None, bool, int and float it raises TypeError.
  - `v[key]` raises KeyError on a dict without the key and TypeError on
    anything else that is not a dict.
  - `isinstance(v, int)` also holds for booleans.
  - Exceptions are values of `Outcome` (`Returns(v)` or `Raises(e)`).
    `var x :- e;` propagates them as Python does.
- `Helpers` (`helpers.dfy`) writes each validator as the Python reads: a chain
  of checks that stops at the first failure. Beside each validator stands a
  declarative description of the documents it accepts (`IsPost`, `IsUser`).
  Contracts and lemmas tie the validator to that description. Further lemmas
  state monotonicity, independence from extra keys, and which inputs raise.

Three behaviours of the code are easy to misread from its docstrings and guards:

- The docstrings promise a boolean: "True if all fields present, False
  otherwise" (utils/helpers.py:84-85) and "True if valid schema, False
  otherwise" (lines 97-98 and 126-127). Yet the validators can raise
  TypeError. They do so on a None, bool or number that a presence check
  reaches: the document itself, `address`, `address.geo`, or `company` once
  `address` has passed. A scalar that no check reaches does not raise: a user
  whose `address` lacks a required key gives False whatever its `company` is.
  They also raise when a list or a string passes a presence check and is
  then subscripted with a string key. The model keeps these exceptions. It states exactly
  which inputs raise (`ValidatePostSchema`, `UserRaises` in
  `ValidateUserSchema`) and proves that users whose nested values are dicts
  never raise (`UserSchemaOnObjects`).
- The guards `if 'address' in user_data:` and `if 'company' in user_data:`
  (lines 136 and 148) suggest that a user without `address` or `company`
  would be accepted. It is not: both keys are in the top-level required
  list, so such a user is rejected at line 132. The guards at lines 136,
  142 and 148 therefore always pass (`PresentFieldIsIn`).
- `geo` and `company` need not be dicts. A list such as `["lat", "lng"]` or
  a string such as `"latlng"` passes their checks, because `in` works on
  lists and strings. The model states this (`IsAddress`, `IsCompany`).
  `address`, by contrast, must be a dict, because it is subscripted with
  `'geo'`.

## Model

The table lists the members that carry a contract. The Python built-ins
they rest on are defined, without contracts, by `PyJson.IsSubstring` (`in`
on two strings), `PyJson.IsInstanceInt` (`isinstance(v, int)`, true on
booleans too) and `PyJson.IsInstanceStr` (`isinstance(v, str)`).

| member | source | states |
|---|---|---|
| `PyJson.Contains` | utils/helpers.py:87 | `name in v` returns exactly on dicts, lists and strings, raises only TypeError, and on a dict is key membership |
| `PyJson.Subscript` | utils/helpers.py:107-114 | `v[key]` returns exactly when `v` is a dict holding `key`, and then gives its value; KeyError exactly when a dict lacks the key |
| `PyJson.IsSubstringAt` | utils/helpers.py:87 | `in` on two strings holds exactly when the name is a prefix of some suffix of the string |
| `Helpers.ValidateResponseSchema` | utils/helpers.py:76-87 | an empty list gives True; on a dict, list or string the result is True exactly when every name is in it, and nothing raises; on None, bool or a number a non-empty list raises TypeError |
| `Helpers.ResponseSchemaOnObject` | utils/helpers.py:87 | on a dict the result is True exactly when every listed name is a key |
| `Helpers.ResponseSchemaFewerFields` | utils/helpers.py:87 | dropping names from the list never turns True into False, for any kind of value |
| `Helpers.ResponseSchemaMoreKeys` | utils/helpers.py:87 | adding keys to a dict never turns True into False |
| `Helpers.ResponseSchemaIgnoresExtraKeys` | utils/helpers.py:87 | on a dict, keys outside the list never change the result |
| `Helpers.PresentFieldIsIn` | utils/helpers.py:132-150 | after a passed presence check, `name in data` is True for every listed name, so the guards at lines 136, 142 and 148 always pass |
| `Helpers.ValidatePostSchema` | utils/helpers.py:90-116 | True exactly on a dict with `userId` and `id` int or bool and `title` and `body` str; a dict never raises; never KeyError; a missing key gives False before any lookup; it raises (TypeError) exactly on a scalar, or on a list or string holding all four names, which line 107 subscripts |
| `Helpers.PostSchemaReadsOnlyRequired` | utils/helpers.py:100-116 | dicts that agree on the four required keys and their values get the same result |
| `Helpers.PostSchemaIgnoresExtraKeys` | utils/helpers.py:100-103 | adding keys outside the required list leaves the result unchanged |
| `Helpers.PostSchemaAcceptsBooleanIds` | utils/helpers.py:107-110 | JSON booleans under `userId` and `id` pass the integer checks |
| `Helpers.CheckAddress` | utils/helpers.py:135-145 | never KeyError; on a user dict with `address`, passes exactly when `address` is a dict with its five keys whose `geo` holds `lat` and `lng`, and raises exactly on a scalar `address`, a list or string `address` holding the five names, or a scalar `geo` |
| `Helpers.CheckCompany` | utils/helpers.py:147-151 | never KeyError; on a user dict with `company`, passes exactly when `company` holds `name`, `catchPhrase` and `bs`, and raises exactly when `company` is a scalar |
| `Helpers.ValidateUserSchema` | utils/helpers.py:119-153 | True exactly on `IsUser` documents; TypeError exactly on `UserRaises` documents (a scalar; a list or string holding the eight names; a raising `address`; a scalar `company` after `address` passed); never KeyError; a dict, list or string missing a top-level key gives False, whatever the nested values; a scalar raises TypeError |
| `Helpers.UserSchemaNestedKeys` | utils/helpers.py:132-151 | a True result means `address` is a dict with `street`, `suite`, `city`, `zipcode` and `geo`, `geo` holds `lat` and `lng`, and `company` holds `name`, `catchPhrase` and `bs` |
| `Helpers.UserSchemaOnObjects` | utils/helpers.py:135-151 | a user dict whose nested values are dicts never raises, and the result is exactly `IsUser` |
| `Helpers.UserSchemaRaisesOnScalarAddress` | utils/helpers.py:136-139 | a None, bool or number under `address` raises TypeError instead of giving False |
| `Helpers.UserSchemaRaisesOnScalarCompany` | utils/helpers.py:148-151 | a None, bool or number under `company` raises TypeError once the address checks passed |
| `Helpers.UserSchemaRaisesOnScalarGeo` | utils/helpers.py:142-145 | a None, bool or number under `address.geo` raises TypeError once the address keys are present |
| `Helpers.UserSchemaRaisesOnListAddress` | utils/helpers.py:136-144 | a list or string `address` holding the five names passes line 138 and raises TypeError at line 144 |
| `Helpers.UserSchemaReadsOnlyRequired` | utils/helpers.py:129-153 | the result depends only on which required keys are present and on the `address` and `company` values |
| `Helpers.UserSchemaIgnoresExtraKeys` | utils/helpers.py:129-153 | adding keys outside the required list leaves the result unchanged |
| `Helpers.UserSchemaIgnoresExtraAddressKeys` | utils/helpers.py:137-145 | adding keys outside `address_fields` to the `address` dict leaves the result unchanged |
| `Helpers.UserSchemaIgnoresExtraGeoKeys` | utils/helpers.py:142-145 | adding keys outside `geo_fields` to the `geo` dict leaves the result unchanged |
| `Helpers.UserSchemaIgnoresExtraCompanyKeys` | utils/helpers.py:148-151 | adding keys outside `company_fields` to the `company` dict leaves the result unchanged |
| `Helpers.UserSchemaIgnoresValues` | utils/helpers.py:129-133 | no value type is checked: replacing `id`, `name`, `username`, `email`, `phone` or `website` by any value, such as an email without '@', leaves the result unchanged |

## Left out

- `APIClient.get`, `post`, `put`, `delete` (utils/helpers.py:9-73): each is one network round trip through the `requests` library. Their only logic is the concatenation of base URL and endpoint.
- `validate_response_time` (utils/helpers.py:156-168): a floating-point comparison on the elapsed time that `requests` measures.
- The posts and users services: they only build endpoint paths and query parameters, then forward to the client.
- The test cases and fixtures: they assert against a live remote server, and their expected counts are remote data.
- The settings module and the package re-exports: constants only.
- JSON floats are kept as their literal text, since no validator inspects them. Float equality is not modelled.
- The list of expected names is modelled as a list of strings. The Python accepts any list, but every caller passes string literals.
- Strings are sequences of Unicode scalar values. Python's json module can also produce a `str` holding a lone surrogate (from an escape such as `\ud800`); such documents cannot be represented. No validator's result depends on them.
