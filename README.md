# Lenient decoding, query assembly and pagination of the third-party API clients

This project models, in Dafny, the reusable logic of three generated REST
client crates:

- **Lenient field decoder** of the corporate-card client (`ramp/src/utils.rs`).
  A JSON value (`RampUtils.WireValue`) goes to a strict visitor (`StringVisit`,
  `BoolVisit`, `I32Visit`, `I64Visit`). The visitor returns `Ok` or `Err`. A
  wrapper (`DeserializeNull*`) then turns every `Err` into the type's default.
  So the visitor's error never reaches the caller ("## Left out" says what
  serde_json does around it). Rust's integer `as` casts are written out
  in `RustInts`. They keep the low bits and read them in the target type.
  `u64 as i32` therefore wraps with no range check, and `u64 as i64`
  reinterprets the bits. The zero predicates `zero_i32`/`zero_i64` are
  modelled too. Lemmas show that an "omit if zero" field decodes back to the
  value it was written from.
- **Query-string assembly** in the payroll client's employee endpoints
  (`gusto/src/employees.rs`) and the document-storage client's revision
  endpoints (`google/drive/src/revisions.rs`). Each builder pushes
  `key=value` arguments into a list. One loop, `QueryString.JoinQuery`, then
  joins them with `&`. It is proved equal to `QueryString.Joined`. `Split`
  is the inverse of `Joined` on non-empty lists of separator-free parts. An
  empty query, which a builder produces when every argument is absent,
  splits into one empty field. The fixed-path URLs are
  functions of the encoded ids.
- **Pagination walker** `drive_list_revisions`
  (`DriveRevisions.DriveListRevisions`). It fetches the first page. Then,
  while the continuation token is non-empty, it requests
  `base?pageToken=<token>`, or `base&pageToken=<token>` when the base already
  has a `?`. It appends each page's revisions. It continues only when the
  returned token is non-empty and differs from the token just used. The method
  is proved equal to the recursive specification `DriveRevisions.ListAll`.
  The lemmas about `ListAll` and `Follow` cover the order of the results,
  the URLs requested, failures, and what the guard can and cannot stop.

Collaborators that are not part of these files become parameters:
`progenitor_support::encode_path` is a function `encode: string -> string`
about which nothing is assumed. One HTTP `GET` plus decoding into a
`RevisionList` is a function `fetch: string -> Option<RevisionList<R>>`.
`None` means the request or the decode failed, where the source's `.unwrap()`
aborts the call. Because `fetch` is a function, the model assumes the server
answers a given URL the same way every time it is asked. The lemmas about
which pages a walk collects (`ItemsAlong`) and about a token cycle never
ending (`TwoCycleNeverEnds`) rest on this assumption.

Two behaviours of the code are easy to misread, and the model keeps them as
written:

- Among integer inputs, only an i64 outside the i32 range is rejected, and
  so falls back to 0. A u64 is never rejected: `as i32` wraps it with no
  check (`ramp/src/utils.rs:133-138`), so 2^31 gives -2^31 and 2^32 gives 0,
  the same value as the fallback.
- The walker's base is `/files/{id}/revisions`, which holds a `?` only if
  `encode_path` leaves one in the id. The walker still models both
  separator branches of
  `google/drive/src/revisions.rs:78-90`.

## Model

| member | source | states |
|---|---|---|
| `RustInts.AsI32` | ramp/src/utils.rs:133-138 | `x as i32` is an i32 congruent to `x` modulo 2^32 (the low 32 bits, read signed) |
| `RustInts.AsI64` | ramp/src/utils.rs:200-205 | `x as i64` is an i64 congruent to `x` modulo 2^64 |
| `RustInts.AsI32Unique` | ramp/src/utils.rs:133-138 | the only i32 congruent to `x` is `AsI32(x)`; a value already in i32 range is unchanged |
| `RustInts.AsI64Unique` | ramp/src/utils.rs:200-205 | the only i64 congruent to `x` is `AsI64(x)`; a value already in i64 range is unchanged |
| `RustInts.U64AsI64` | ramp/src/utils.rs:200-205 | a u64 up to i64::MAX is unchanged; above it, it becomes `u - 2^64`, which is negative |
| `RustInts.U64AsI32Wraps` | ramp/src/utils.rs:133-138 | 2^31 becomes -2^31, 2^32 becomes 0, 2^32+5 becomes 5, 2^64-1 becomes -1 |
| `RampUtils.StringVisit` | ramp/src/utils.rs:20 | String's visitor accepts exactly string values and returns them unchanged |
| `RampUtils.DeserializeNullString` | ramp/src/utils.rs:16-23 | never fails: a string comes back unchanged; null, numbers, booleans and everything else give "" |
| `RampUtils.ParseBool` | ramp/src/utils.rs:46-52 | `bool::from_str` accepts exactly "true" and "false" (case-sensitive); any other string is an invalid-value error carrying that string |
| `RampUtils.BoolVisit` | ramp/src/utils.rs:28-67 | native booleans pass through; a string is accepted iff it is "true" or "false", and maps to the matching value; every other kind is an invalid-type error |
| `RampUtils.DeserializeNullBoolean` | ramp/src/utils.rs:79-88 | the result is true iff the visitor receives the boolean true or the string "true"; every other value gives false |
| `RampUtils.I32Visit` | ramp/src/utils.rs:93-139 | i8/i16/i32 are exact; an i64 is accepted iff it lies in [-2^31, 2^31-1], and is then exact, otherwise an out-of-range error; a u64 is always accepted, congruent modulo 2^32; other kinds are an invalid-type error |
| `RampUtils.DeserializeNullI32` | ramp/src/utils.rs:151-160 | never fails; an exact value where the visitor accepts; 0 for an out-of-range i64 and for every non-integer value |
| `RampUtils.U64ToI32Unchecked` | ramp/src/utils.rs:133-138 | a u64 decodes as i32 to `AsI32(u)`: exact up to 2^31-1, 2^31 gives -2^31, 2^32 gives 0 |
| `RampUtils.I64Visit` | ramp/src/utils.rs:165-206 | every signed width is widened exactly; a u64 is reinterpreted modulo 2^64; other kinds are an invalid-type error |
| `RampUtils.DeserializeNullI64` | ramp/src/utils.rs:218-227 | never fails; an exact value for every signed width; a u64 modulo 2^64; 0 for every non-integer value |
| `RampUtils.U64ToI64Reinterprets` | ramp/src/utils.rs:200-205 | a u64 above i64::MAX decodes to `u - 2^64`: negative, never 0 and never saturated; below that it is exact |
| `RampUtils.Result.OrDefault` | ramp/src/utils.rs:155-157 | `unwrap_or_default` (also lines 20, 85, 224): the accepted value, or the given default on any error |
| `RampUtils.ZeroI32` | ramp/src/utils.rs:402-404 | `zero_i32(n)` holds iff n is the default the i32 decoder falls back to (0) |
| `RampUtils.ZeroI64` | ramp/src/utils.rs:406-408 | `zero_i64(n)` holds iff n is the default the i64 decoder falls back to (0) |
| `RampUtils.ZeroAfterDecode` | ramp/src/utils.rs:402-408 | after decoding, `zero_i32`/`zero_i64` hold iff the visitor rejected the value or accepted a 0; null and strings always give a zero |
| `RampUtils.I32FieldRoundTrip` | ramp/src/utils.rs:402-404 | an i32 written with "omit if `zero_i32`" and read back with the lenient decoder (absent = default) is the same value; it is omitted iff it is 0 |
| `RampUtils.I64FieldRoundTrip` | ramp/src/utils.rs:406-408 | the same round trip for i64 with `zero_i64` |
| `RampUtils.ScalarRoundTrip` | ramp/src/utils.rs:16-66 | a string, a boolean and the string form of a boolean decode back to themselves |
| `QueryString.Joined` | gusto/src/employees.rs:34-41 | the value of `include.join(" ")` and of the `&` loop: no parts give "", otherwise the result starts with the first part |
| `QueryString.JoinQuery` | gusto/src/employees.rs:36-41 | the `&` loop (the same in every builder) returns exactly `Joined(args, '&')`: each argument in order, with `&` only between consecutive ones |
| `QueryString.SplitJoined` | gusto/src/employees.rs:36-41 | round trip: splitting the joined query at `&` gives back the arguments, when there is at least one and none of them contains `&` |
| `QueryString.SeparatorCount` | gusto/src/employees.rs:36-41 | the join adds exactly (#args - 1) separators to those inside the arguments; no arguments give "" |
| `QueryString.JoinedEnds` | gusto/src/employees.rs:36-41 | the join starts with the first argument and ends with the last: no leading or trailing separator |
| `QueryString.JoinedPair` | google/drive/src/revisions.rs:40-45 | two arguments join as `a&b` |
| `QueryString.Decimal` | google/drive/src/revisions.rs:35 | `format!("{}", page_size)` for a positive size: a non-empty string of decimal digits |
| `QueryString.DecimalRoundTrip` | google/drive/src/revisions.rs:35 | `format!("{}", n)` of a non-negative integer is non-empty, all digits, has no leading zero for n > 0, and reads back as n |
| `GustoEmployees.IncludeArg` | gusto/src/employees.rs:101-103 | at most one argument, present iff the include list is non-empty, and starting with `include=` (also lines 33-35, 143-145) |
| `GustoEmployees.TerminatedArg` | gusto/src/employees.rs:106-108 | `terminated=true` iff `terminated`, otherwise nothing (also lines 147-149) |
| `GustoEmployees.CompanyEmployeesArgs` | gusto/src/employees.rs:101-108 | the pushed arguments always hold `page=` and `per=`; one more for a non-empty include list and one more when terminated |
| `GustoEmployees.AllCompanyEmployeesArgs` | gusto/src/employees.rs:143-149 | the pushed arguments always hold `per=`; one more for a non-empty include list and one more when terminated |
| `GustoEmployees.GetEmployeesUrl` | gusto/src/employees.rs:31-46 | `/v1/employees/{encoded id}?`, followed by `include=` and the items joined by single spaces iff the list is non-empty; otherwise the URL ends in a bare `?` |
| `GustoEmployees.GetCompanyEmployeesUrl` | gusto/src/employees.rs:99-119 | `/v1/companies/{encoded id}/employees?` followed by the `&`-join of the arguments: include (if any), page, per, terminated (if true) |
| `GustoEmployees.GetAllCompanyEmployeesUrl` | gusto/src/employees.rs:141-160 | the same URL with the arguments include (if any), per, terminated (if true) |
| `GustoEmployees.CompanyArgsOrder` | gusto/src/employees.rs:101-108 | page and per are always present, in the order include, page, per, terminated; the include argument is present iff the list is non-empty |
| `GustoEmployees.TerminatedOnlyWhenTrue` | gusto/src/employees.rs:106-108 | `terminated=true` is among the arguments iff `terminated` holds, in both listings; `terminated=false` never is |
| `GustoEmployees.AllCompanyArgsHaveNoPage` | gusto/src/employees.rs:143-149 | `get_all_company_employees` never sends a `page=` argument and always sends `per=` |
| `GustoEmployees.CompanyQueryFields` | gusto/src/employees.rs:99-114 | when no argument text contains `&`, the `&`-separated fields of either listing's query are exactly its arguments |
| `GustoEmployees.EmployeeUrl` | gusto/src/employees.rs:63-66 | `put_employees`'s URL contains a `?` iff the encoded id does; its length is the prefix's plus the encoded id's |
| `GustoEmployees.CompanyEmployeesUrl` | gusto/src/employees.rs:177-180 | `post_employees`'s URL contains a `?` iff the encoded id does, and ends in `/employees` |
| `GustoEmployees.HomeAddressUrl` | gusto/src/employees.rs:201-204 | the home-address URL (get and put, lines 221-224) is the employee URL followed by `/home_address`, so it contains a `?` iff the encoded id does |
| `GustoEmployees.UrlsDetermineEncodedId` | gusto/src/employees.rs:63-66 | for each of the put, post and home-address URLs, two ids give the same URL iff they encode to the same path segment |
| `DriveRevisions.RevisionsUrl` | google/drive/src/revisions.rs:66-69 | the listing URL contains a `?` iff the encoded file id does; every revision URL of that file is it followed by `/` and the encoded revision id |
| `DriveRevisions.RevisionUrl` | google/drive/src/revisions.rs:154-158 | the delete/update URL (also lines 179-183) contains a `?` iff one of the encoded ids does |
| `DriveRevisions.RevisionUrlInjective` | google/drive/src/revisions.rs:179-183 | with slash-free encoded file ids, equal revision URLs have equal encoded file and revision ids |
| `DriveRevisions.DriveListArgs` | google/drive/src/revisions.rs:34-39 | one argument per condition that holds: `page_size=` first when the size is positive, `page_token=` last when the token is non-empty |
| `DriveRevisions.DriveListUrl` | google/drive/src/revisions.rs:32-50 | `drive_list`'s URL is the listing path, `?`, and the `&`-join of its pushed arguments |
| `DriveRevisions.DriveListQuery` | google/drive/src/revisions.rs:34-45 | `page_size=` is present iff page_size > 0, `page_token=` iff the token is non-empty, in that order, with `&` only between them |
| `DriveRevisions.DriveList` | google/drive/src/revisions.rs:52-55 | one request to that URL; its revisions on success, no result when the request fails |
| `DriveRevisions.DriveGetUrl` | google/drive/src/revisions.rs:122-138 | the revision URL, `?`, then `acknowledge_abuse=true` iff acknowledging, otherwise nothing |
| `DriveRevisions.PageUrl` | google/drive/src/revisions.rs:78-90 | a follow-up URL starts with the base and always contains a `?` |
| `DriveRevisions.PageUrlParts` | google/drive/src/revisions.rs:78-90 | a follow-up URL is the base, then `?pageToken=` when the base has no `?` and `&pageToken=` when it has one, then the token; it always has a `?` |
| `DriveRevisions.PageUrlOneQuery` | google/drive/src/revisions.rs:78-81 | when neither the base nor the token has a `?`, the follow-up URL has exactly one |
| `DriveRevisions.NextPage` | google/drive/src/revisions.rs:94-98 | the loop continues iff the returned token is non-empty and differs from the one just used, and then with that token |
| `DriveRevisions.Follow` | google/drive/src/revisions.rs:77-99 | the loop from a given token and collected list: an empty token ends it at once with that list and no request; it makes at most fuel requests |
| `DriveRevisions.ListAll` | google/drive/src/revisions.rs:71-99 | the whole walk: the first request is the base, at most fuel + 1 requests in all, and a failed first request fails the walk |
| `DriveRevisions.DriveListRevisions` | google/drive/src/revisions.rs:65-103 | the loop's outcome is `ListAll(fetch, base, fuel)`: the collected revisions, failure, or the fuel bound reached |
| `DriveRevisions.ListAllConcatenates` | google/drive/src/revisions.rs:73-92 | a finished walk returns the in-order concatenation of the revisions of every page it requested |
| `DriveRevisions.FollowConcatenates` | google/drive/src/revisions.rs:92 | from any point of the loop, a finished walk returns the revisions so far followed by those of each later page |
| `DriveRevisions.FollowExtends` | google/drive/src/revisions.rs:92 | the list only grows: a finished walk extends the revisions collected so far |
| `DriveRevisions.ListAllRequests` | google/drive/src/revisions.rs:71-99 | the first request is the base; each later one is `PageUrl(base, token of the previous response)` and follows a success; the walk fails iff its last request failed; at most fuel + 1 requests |
| `DriveRevisions.FollowRequests` | google/drive/src/revisions.rs:77-99 | the same chain from any point of the loop: it starts at `PageUrl(base, page)` and holds at most fuel requests |
| `DriveRevisions.FollowChained` | google/drive/src/revisions.rs:77-99 | from any point of the loop, every follow-up request comes after a successful one and is `PageUrl(base, token that response returned)` |
| `DriveRevisions.FollowFailsLast` | google/drive/src/revisions.rs:77-99 | from any point of the loop, the walk fails exactly when its last request gets no response |
| `DriveRevisions.ChainedCons` | google/drive/src/revisions.rs:77-99 | a successful request whose returned token names the next URL extends a chain of requests by one at its front |
| `DriveRevisions.SinglePage` | google/drive/src/revisions.rs:71-77 | an empty first token: exactly one request, and the result is the first page's revisions |
| `DriveRevisions.EchoedTokenStops` | google/drive/src/revisions.rs:94-98 | a server that returns the token it was given costs exactly one more request, after which the walk completes |
| `DriveRevisions.ThreePages` | google/drive/src/revisions.rs:77-99 | tokens "A", "B", "": three requests (`base`, `base?pageToken=A`, `base?pageToken=B`) and the three pages' revisions in order |
| `DriveRevisions.SecondRequestFails` | google/drive/src/revisions.rs:79-89 | a failed second request fails the walk; the first page's revisions are not returned |
| `DriveRevisions.FuelIrrelevant` | google/drive/src/revisions.rs:77-99 | a walk that ends within its fuel ends the same way, with the same requests, under any larger fuel |
| `DriveRevisions.TwoCycleNeverEnds` | google/drive/src/revisions.rs:94-98 | the guard only catches an immediate repeat: with A -> B -> A the walk reaches the fuel bound for every fuel, so the source loops for ever |
| `DriveRevisions.FollowUpsUseQuestionMark` | google/drive/src/revisions.rs:78-81 | when the encoded file id has no `?`, every follow-up is `/files/{id}/revisions?pageToken=<token>` |

## Left out

- `DriveRevisions.DriveListRevisions`: the source loop has no bound, and it never ends when the server cycles through two or more tokens. The model adds a `fuel` bound on the number of follow-up requests and an `OutOfFuel` outcome. `FuelIrrelevant` shows that any bound large enough gives the source's result. `TwoCycleNeverEnds` shows the case where no bound is large enough.
- `DriveRevisions.DriveList`, `DriveRevisions.DriveListRevisions`: `.unwrap()` panics on a failed request. It is modelled as an outcome with no revisions (`None`, `Failed`), not as a panic.
- Floating-point decoding (`F32Visitor`, `F64Visitor`, `deserialize_null_f32/f64`, `zero_f32`, `zero_f64`): floating point is out of scope. A float reaching an integer, boolean or string visitor is `WireValue.Float`, which those visitors reject.
- Serde's dispatch from the JSON input to a visitor method is not modelled. The model hands each value straight to the matching visitor method. For integers and strings this is what serde_json does. For booleans it is not: serde_json's `deserialize_bool`, reading either JSON text or a `serde_json::Value`, passes only a JSON boolean to `visit_bool` and rejects a string before `BoolVisitor` sees it. Under serde_json a stringified boolean such as "true" therefore decodes to `false`. `DeserializeNullBoolean(Str("true")) == true` holds only for a deserializer that passes strings to `visit_str` under `deserialize_bool`, such as one that forwards to `deserialize_any` or serde's string deserializer. u8/u16/u32 reach `visit_u64` through serde's defaults, so they are `U64` here. Byte strings, which `String`'s visitor also accepts, are not modelled. Under serde_json text input, an array or object in a lenient field is rejected without being consumed, so the parse of the enclosing record then fails. The model's "a field never fails to decode" covers only the field's own value (`WireValue.Array`/`Object` decode to the default), not this effect on the record's parse.
- Absent fields: their default comes from `#[serde(default)]` attributes on the generated types. Those types are not part of this model. `ReadI32Field`/`ReadI64Field` model only the read side of the "omit if zero" round trip.
- The visitors' `expecting` messages and the text of the errors are not modelled. An out-of-range i64 error carries the value.
- The HTTP client (`get`, `put`, `post`, `patch`, `delete`, `get_all_pages`) is not part of this model. The builders return the URL they would request. The listing calls take `fetch` as a parameter. Gusto's page walking lives inside `get_all_pages`, so it is not modelled.
- `progenitor_support::encode_path` is not part of this model. It is the parameter `encode`, and the lemmas assume nothing about it beyond the stated `?`/`/` conditions.
- `format!("{}", f64)` for Gusto's `page` and `per` is float formatting. Those arguments are taken as already rendered text.
- Request bodies (`serde_json::to_vec`, `reqwest::Body`), async/await and the `new` constructors carry no logic here.
