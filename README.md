# Authoritative DNS record synthesis, modelled in Dafny

This project models the record-synthesis core of a small authoritative DNS
server written in Python. The model has two parts.

- **Record synthesis** (`server/search.py`). A stored domain record is a
  JSON-like map. For each record type it holds a sub-record with a `ttl` and
  a `value`.
  - `search` runs `_identify_record` over every live item the store returns
    and concatenates the results.
  - `_identify_record` always emits the CNAME part first. Then, in a fixed
    order, it emits A, AAAA, NS, MX, SOA, TXT, SRV, CAA and NAPTR, each when
    the query type is that type's code or ANY (255).
  - Each per-type builder is all-or-nothing: a `KeyError` anywhere gives no
    records for that type.
- **Response assembly** (`server/main.py`, `UDPHandler.respond_to_client`).
  - The question loop accumulates the answer, authority and additional
    sections. After each question it appends the request's own additional
    records.
  - AA is set when the authority section is non-empty. Otherwise, when both
    answer and authority are empty, RCODE is REFUSED (5).
  - The header echoes the id and RD and sets QR=1 and RA=0. The questions
    are echoed.

## Files

- `json.dfy` (module `Json`): stored values and how a Python expression over
  them ends.
  - `Outcome` is `Done`, `KeyMissing` (a `KeyError`) or `Fault` (any other
    exception: `TypeError`, `AttributeError`, `ValueError`).
  - It also holds the lookups and conversions the builders use.
- `dns.dfy` (module `Dns`): record types and their QTYPE codes, typed
  payloads, and resource records.
- `builders.dfy` (module `Builders`): the ten builders.
  - Each entry's payload, and the list builders as specification functions.
  - The list builders also as methods with the source's `for` loop, proved
    equal to those functions.
  - The CNAME and SOA builders, and the all-or-nothing and shape lemmas.
- `search.dfy` (module `Search`):
  - the dispatch of `_identify_record`;
  - `search` as a method with its loop;
  - lemmas about order, selection and concatenation.
- `respond.dfy` (module `Respond`):
  - the question loop and header rules of `respond_to_client` as a method;
  - lemmas on the accumulated sections;
  - the question loop as written against the real `search` (see Findings).

`respond_to_client` unpacks three sections from `search`
(`server/main.py:31`), but `search` returns a single list
(`server/search.py:43`). The handler is modelled against an abstract resolver
that returns the three sections; its combination with the real `search` is
recorded under Findings.

## Model

| member | source | states |
|---|---|---|
| `Dns.CodeInjective` | server/search.py:48-65 | distinct record types have distinct QTYPE codes, and none of them is ANY (255) |
| `Builders.MxPayload` | server/search.py:158-163 | an MX entry succeeds exactly when it is a dictionary with `domain` and an `int`-convertible `preference`; the payload carries those two values; a KeyError exactly when one of the keys is absent |
| `Builders.SrvPayload` | server/search.py:222-228 | an SRV entry succeeds exactly when `priority`, `weight` and `port` are present and convertible and `target` is present; the payload carries them in that order; a KeyError exactly when the first key read that is absent comes after fields that were all present and convertible, in the order priority, weight, port, target |
| `Builders.CaaPayload` | server/search.py:245-250 | a CAA entry succeeds exactly when `flags` is present and convertible and `tag` and `value` are present; the payload carries them; a KeyError exactly when a key is absent and no conversion failed before it |
| `Builders.NaptrPayload` | server/search.py:267-276 | a NAPTR entry succeeds exactly when order and preference convert, flags and service are present strings, regexp is absent, falsy or a string, and replacement is present; regexp is the stored string, or "" when absent or falsy; a KeyError exactly when a key is absent and every field read before it (order, preference, flags, service, regexp, replacement, in that order) was present and accepted: an absent flags or service is a KeyError, not a default |
| `Builders.Caught` | server/search.py:85-86 | `except KeyError: return []`: a KeyError becomes no records, every other outcome passes unchanged, so no KeyError escapes a builder |
| `Builders.RunListBody` | server/search.py:75-84 | the imperative body of a list-valued builder (sub-record, `int(ttl)`, the `value` list, then one record per entry) returns what the list-body specification gives |
| `Builders.BuildEntries` | server/search.py:79-83 | the `for` loop that appends one record per entry returns the records of all entries in order, or stops at the first entry that fails and fails the same way |
| `Builders.ListSearch` | server/search.py:69-86 | a list-valued builder (A, AAAA, NS, MX, TXT, SRV, CAA, NAPTR) returns that type's search result and never lets a KeyError escape |
| `Builders.CnameSearch` | server/search.py:109-125 | at most one CNAME record; exactly one when the sub-record is well formed, and then it is owned by `record["domain"]`, points to the sub-record's `domain` and carries its ttl; no records exactly when the first lookup that fails (`CNAME`, its `ttl`, the record's `domain`, the sub-record's `domain`) is a missing key |
| `Builders.ToInts` | server/search.py:180 | the SOA times converted by `int`, one by one and in order; succeeds exactly when every element converts |
| `Builders.SoaSearch` | server/search.py:169-189 | at most one SOA record; exactly one when the sub-record is well formed, with owner, type, ttl, mname, rname and times equal to the stored times converted elementwise; no records exactly when the first lookup that fails (`SOA`, its `ttl` or `times`, the record's `domain`, `mname`, `rname`) is a missing key |
| `Builders.TypeSearch` | server/search.py:47-65 | the builder of any one type never lets a KeyError escape |
| `Builders.EntriesFailureSticks` | server/search.py:79-84 | once an entry fails, the list built for all entries fails the same way |
| `Builders.EntriesDone` | server/search.py:79-84 | the entries succeed exactly when each one does, and then there is one record per entry, in list order, each the record built from its entry |
| `Builders.EntriesFirstFailure` | server/search.py:79-86 | when entry k is the first to fail, the whole list fails, with a KeyError exactly when entry k's failure is one |
| `Builders.ListSearchShape` | server/search.py:75-84 | every non-empty result of a list-valued builder has one record per stored value, in order, each with `rname = record["domain"]`, the builder's own type code, the sub-record's ttl and the payload of its entry |
| `Builders.ListSearchComplete` | server/search.py:75-84 | a sub-record with a convertible `ttl` and an iterable `value` whose entries all build (and an owner `domain` when there is an entry) gives exactly one record per stored value, in list order, each with `rname = record["domain"]`, the builder's type code, the entry's payload and the ttl |
| `Builders.ListSearchAllOrNothing` | server/search.py:75-86 | a missing type key, `ttl`, `value`, owner `domain` or per-entry field gives no records for the whole type, never a partial list |
| `Builders.ListSearchFaults` | server/search.py:75-86 | only a KeyError is caught: a sub-record that is not a dictionary, a `ttl` that `int` rejects, a `value` that cannot be iterated, or a first failing entry whose payload raises another exception escapes the builder |
| `Builders.TypeSearchOwnType` | server/search.py:75-84 | every record of a type's builder is owned by the record's `domain` and carries that type's code |
| `Search.DispatchSkip` | server/search.py:48-65 | types the query does not select add nothing |
| `Search.DispatchOnly` | server/search.py:48-65 | with a single selected type left, the dispatch appends that type's records alone or fails as its builder does |
| `Search.DispatchAll` | server/search.py:48-65 | with every type selected and no failing builder, the dispatch appends every type's records in dispatch order |
| `Search.DispatchExtends` | server/search.py:47-66 | `+=` only appends: what was accumulated stays a prefix of the result |
| `Search.DispatchNeverKeyMissing` | server/search.py:47-66 | when no builder raises a KeyError, neither does the dispatch |
| `Search.OrderPosition` | server/search.py:48-65 | each type other than CNAME has one position in the dispatch order, and its own code selects no other position |
| `Search.DispatchCnameFirst` | server/search.py:47 | the CNAME builder's records open the result, or its fault ends it |
| `Search.DispatchAnyFailure` | server/search.py:47-66 | for ANY, a builder that raises at any remaining position ends the dispatch with no result |
| `Search.DispatchAny` | server/search.py:47-66 | for ANY, the dispatch succeeds exactly when no builder fails, and then gives every type's records in dispatch order |
| `Search.FlatFromOrder` | server/search.py:47-66 | the records of every position of the dispatch order are those of CNAME, A, AAAA, NS, MX, SOA, TXT, SRV, CAA and NAPTR, concatenated in that order |
| `Search.DispatchSpecific` | server/search.py:47-66 | for one type's code, the result is the CNAME records followed by that type's records, or the first failure of the two builders |
| `Search.DispatchSpecificOwnType` | server/search.py:47-66 | for one type's code, every record after the CNAME part has that type |
| `Search.DispatchCnameOnly` | server/search.py:47-66 | a query type that selects nothing but CNAME gets the CNAME builder's outcome alone |
| `Search.Identify` | server/search.py:46-66 | `_identify_record`: no KeyError ever leaves it, and when it succeeds the CNAME builder's records open its result |
| `Search.IdentifyCnameFirst` | server/search.py:47 | a well-formed CNAME record is the first record of `_identify_record`'s output for every query type, including types it does not match |
| `Search.IdentifyAny` | server/search.py:47-66 | for ANY, `_identify_record` succeeds exactly when no type's builder raises, and then returns every type's records in dispatch order |
| `Search.IdentifySpecific` | server/search.py:47-66 | for the code of a type other than CNAME, `_identify_record` succeeds exactly when the CNAME builder and that type's builder do, and returns their records in that order |
| `Search.IdentifySpecificOwnType` | server/search.py:47-66 | for such a code, every record after the CNAME part is of that type |
| `Search.IdentifyUnhandled` | server/search.py:47-66 | a query type outside the nine dispatched types and ANY, CNAME included, gets the CNAME part alone |
| `Search.SearchDomain` | server/search.py:19-43 | `search` concatenates `_identify_record` over the store's items in store order, stopping at the first item that faults; a reply without `Items` gives no records; no KeyError escapes |
| `Search.ConcatFailureSticks` | server/search.py:39-40 | once an item fails, the whole search fails the same way |
| `Search.ConcatAppend` | server/search.py:39-40 | searching two runs of items is searching each and concatenating: the result follows store order |
| `Search.ConcatSingle` | server/search.py:39-40 | a single item gives exactly its own `_identify_record` outcome |
| `Search.ConcatNeverKeyMissing` | server/search.py:39-40 | when no item's dispatch raises a KeyError, neither does the loop |
| `Search.SearchNeverKeyMissing` | server/search.py:30-43 | no KeyError ever leaves `search`, whatever the store holds |
| `Respond.RespondToClient` | server/main.py:25-45 | answer, authority and additional are the accumulated sections; AA is set exactly when authority is non-empty; RCODE is 5 exactly when answer and authority are both empty, 0 otherwise; AA and RCODE 5 never together; id and RD echoed; QR=1, RA=0; questions unchanged |
| `Respond.GatheredSingle` | server/main.py:29-35 | one question gives its own sections, with the request's additional records after its own |
| `Respond.GatheredAppend` | server/main.py:29-35 | every section is the concatenation, in question order, of the per-question sections |
| `Respond.GatheredEmpty` | server/main.py:36-39 | the accumulated answer (or authority) is empty exactly when every question's is, so RCODE 5 means no question found anything |
| `Respond.AdditionalCount` | server/main.py:34-35 | the request's additional records appear once per question: the length grows by the number of questions times their count |
| `Respond.Repeat` | server/main.py:35 | n copies of the request's additional records have n times their length |
| `Respond.AdditionalWithoutGlue` | server/main.py:34-35 | with no resolver additional records, the additional section is the request's own records repeated once per question |
| `Respond.StepAsWrittenRaises` | server/main.py:31-35 | as written, every pass of the question loop over `search`'s result raises |
| `Respond.GatheredAsWrittenOnlyWithoutQuestions` | server/main.py:29-35 | as written, the question loop completes exactly for requests without questions |
| `Respond.ExampleQueryRaises` | server/search.py:39-43 | an A query for a domain with one A value makes `search` return a one-element list, on which the loop as written raises |

## Left out

- The DynamoDB client, credentials and query (`server/search.py:11-16`,
  `32-35`) are external storage. The store's reply is an input: the live items,
  or a reply without `Items`.
- Logging (`server/search.py:4-8`, `27`, `42`) is observability only.
- dnslib is a foreign library and is not modelled: wire parsing and packing,
  and the address, label and text parsing inside `dnslib.A`, `AAAA`, `CNAME`,
  `NS`, `MX`, `TXT`, `SRV`, `CAA`, `SOA` and `NAPTR`.
  - Payload fields that are not passed through `int` stay stored values.
  - `.encode('utf-8')` keeps the characters.
  - A string that dnslib would reject is not a fault in the model.
- Integer widths are not modelled. A ttl is an unsigned 32-bit value
  (RFC 1035 section 3.2.1). MX preference, SRV priority, weight and port, and
  NAPTR order and preference are 16-bit values; CAA flags are 8-bit; an SOA
  carries exactly five 32-bit times. The source passes the converted integers
  to dnslib unchecked, and the model builds records with any integer and any
  number of SOA times. dnslib's range checks, which would end the request
  with an exception, are not modelled.
- `int(...)` on a string is not modelled: a stored string in a numeric field
  counts as a fault, as does any value other than a number or a boolean.
  Python would convert a decimal string. Stored numbers are integers, with no
  fractional `Decimal` values.
- DynamoDB string, number and binary sets, and binary values, are not
  modelled: a stored value is None, a boolean, a number, a string, a list or
  a map. A set stored under `value` or `times` would be iterated in an
  unspecified order, which the list-order properties do not cover.
- Iterating a dictionary stored under `value` or `times` is not modelled and
  counts as a fault. Python would iterate its keys.
- `question.qname.idna()` is not modelled: a question's name is taken as
  already in IDNA form.
- Sockets, `recvfrom`/`sendto`, request parsing and response packing, and the
  thread per request (`server/main.py:14-16`, `25`, `47`, `50-58`) are I/O and
  concurrency.
- Authority, glue and negative-SOA construction, TCP framing and EDNS0 are
  not in the source. The resolver `respond_to_client` is modelled against is
  an abstract function from a name and a query type to three sections.
- `_identify_record` is modelled by the function `Identify`, a fold over the
  fixed dispatch order, and not by a method. The source has no loop there,
  only nine guarded `+=` steps. The list builders and `search`, which do
  loop, are methods.

## Findings

| source | as written | input that shows it | evidently intended | confidence | as-written member | corrected member |
|---|---|---|---|---|---|---|
| server/main.py:31 | `search` returns one list of records (`server/search.py:43`), which the loop unpacks into three names: a list without exactly three records raises ValueError, and three records make `answer += rr_set` raise TypeError, because a single record is not iterable; the handler then never sends a response to a request with a question | a stored item `{"domain": "example.com", "A": {"ttl": 300, "value": ["192.0.2.1"]}}` and one A question for example.com: `search` returns one record | the resolver returns the answer, authority and additional sections for each question, and every request is answered | high for the ValueError; medium for the TypeError, which depends on dnslib's record class having no iteration; not executed | `Respond.GatheredAsWrittenOnlyWithoutQuestions` | `Respond.RespondToClient` |
