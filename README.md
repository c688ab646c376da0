# google-books-search, modelled in Dafny

A model of the Google Books search client in `lib/google-books-search.js`:
its single entry point `search(query, options, callback)` merges the
caller's options over a shared defaults object, runs three validity checks,
prefixes the query with a field keyword, builds the request parameters,
and turns each item of the API's JSON reply into a sparse book record.

The model is split by concern:

- `js.dfy` (module `Js`): the JavaScript values the client touches and
  JavaScript truthiness (`null`, `""`, `0` and `undefined` are falsy; every
  array, even an empty one, is truthy).
- `options.dfy` (module `SearchOptions`): the defaults, `extend`, the
  validity checks, the field keyword table, and the request parameters,
  modelled as a sequence of name/value pairs.
- `volumes.dfy` (module `Volumes`): the reply (transport error, or status
  and parsed body), the book record built key by key from each item, and
  the loop over `items` that collects the records.
- `search.dfy` (module `GoogleBooksSearch`): the client object, a class
  whose `defaultOptions` field every search overwrites in place, and
  `Search`, which ties the pieces together.

The HTTP reply is an input of `Search`. `Search` returns the parameters of
the request it sends and, in order, everything that reaches the callback.

## Quirks of the code the model keeps

- `search` calls `extend(defaultOptions, options || {})` (line 53), which
  writes the caller's options into the shared `defaultOptions` object. So an
  option passed once stays in force for every later search
  (`DefaultsAfterLeak`, `SearchesInTurn`, `LimitLeaksIntoNextSearch`).
- The three checks after the `// Validate options` comment (lines 55-66)
  each call `callback(null)` and do not return. One `null` is delivered per
  failed check, and the request is still built and sent with the invalid
  values, for instance a limit above the "(Max 40)" of line 22
  (`Client.Search`, `InvalidSearchStillSends`).
- A `field` outside the keyword table makes `fields[options.field]`
  `undefined`, and `+` at line 70 turns that into the text "undefined" in
  front of the query (`Prefixed`).
- An item without `volumeInfo` leaves `book` `undefined` (line 105), so
  reading `book.title` at line 111 throws a TypeError. The callback is then
  never called for the reply (`Completion.Threw`, `Handles`).

## Model

| member | source | states |
|---|---|---|
| `SearchOptions.Get` | lib/google-books-search.js:15-30 | an options object has exactly the seven properties key, field, offset, limit, type, order, lang |
| `SearchOptions.Extend` | lib/google-books-search.js:53 | the merged options hold, for every property name, the caller's value when one was passed and the defaults' value otherwise |
| `SearchOptions.DefaultsAfterLeak` | lib/google-books-search.js:51-53 | after any sequence of searches, each option holds the value last passed for it by any caller, and its initial default only if no caller ever passed it |
| `SearchOptions.Rejections` | lib/google-books-search.js:56-66 | a check appears among the rejections exactly when it fails (falsy query, offset below 0, limit outside 1..40), each once and in source order; there are none exactly when the search is valid |
| `SearchOptions.KeywordPrefix` | lib/google-books-search.js:33-39 | a field name has a prefix exactly when it is one of title, author, publisher, subject, isbn; every prefix ends in a colon |
| `SearchOptions.Prefixed` | lib/google-books-search.js:70 | a keyword field puts its prefix directly before the query; any other name puts the text "undefined" there; the query always ends the result |
| `SearchOptions.QueryTextPrefix` | lib/google-books-search.js:69-71 | with a keyword field, `q` is the prefix followed by the query with no separator; with no field (null or empty), `q` is the query unchanged; with another field name, `q` starts with "undefined" |
| `SearchOptions.AuthorExample` | lib/google-books-search.js:69-71 | searching "Tolkien" by author sends `q` = "inauthor:Tolkien" |
| `SearchOptions.BuildRequest` | lib/google-books-search.js:69-85 | the parameters always hold q, startIndex = offset, maxResults = limit, printType = type, orderBy = order, langRestrict = lang; they hold key exactly when the merged key is truthy; they hold no other name, and each name once |
| `SearchOptions.BaseParamsLookup` | lib/google-books-search.js:74-85 | looking up any name in the parameter literal, plus the optional key, yields the value the request must carry for it |
| `Volumes.BuildRecord` | lib/google-books-search.js:105-129 | the record built for an item has each key exactly when the key's source value is truthy, holding that value unchanged; id comes from the item, thumbnail from imageLinks.thumbnail, link from infoLink, the rest from the same names in volumeInfo; a record has no keys but these eleven, which the type `Book = map<Key, Value>` guarantees |
| `Volumes.RecordDetermined` | lib/google-books-search.js:105-131 | the record of an item depends on that item alone |
| `Volumes.TruthinessOfFields` | lib/google-books-search.js:111-125 | an empty authors array is kept; a pageCount of 0, an empty title and a thumbnail without image links are dropped |
| `Volumes.OneItemExample` | lib/google-books-search.js:105-131 | an item with id "abc", title "T" and authors ["A"] gives exactly the record {id, title, authors} with those values |
| `Volumes.HandleResponse` | lib/google-books-search.js:92-143 | a transport error or a status other than 200 gives `null`, and only those do; a missing items gives an empty list; otherwise the result has one record per item, record i built from item i, unless some item lacks volumeInfo, in which case a TypeError is thrown |
| `Volumes.RecordsDetermined` | lib/google-books-search.js:103-133 | the result list is determined by the items: same length, same order, no merging |
| `Volumes.HandlesDetermined` | lib/google-books-search.js:92-143 | a reply determines exactly one outcome |
| `GoogleBooksSearch.Client.constructor` | lib/google-books-search.js:15-30 | a new client starts from the defaults: no key, no field, offset 0, limit 10, type "all", order "relevance", lang "en" |
| `GoogleBooksSearch.Client.Search` | lib/google-books-search.js:51-147 | the defaults become the merged options; the request always carries the parameters of the merged options; the callback receives one `null` per failed check, then the reply's outcome |
| `GoogleBooksSearch.LimitLeaksIntoNextSearch` | lib/google-books-search.js:51-81 | after one search passes limit 40, a search with no options sends maxResults 40 |
| `GoogleBooksSearch.InvalidSearchStillSends` | lib/google-books-search.js:56-90 | a search failing all three checks gets three `null` callbacks and still sends its six-parameter request, with q "", startIndex -1 and maxResults 0; the fourth callback outcome is the one the reply determines |
| `GoogleBooksSearch.SearchesInTurn` | lib/google-books-search.js:51-53 | running searches one after another on one client leaves the defaults as the options extended call by call; each option is the value last passed for it, or its initial default if none was |

## Left out

- The HTTP request (line 90) and the asynchronous delivery of its reply. The reply is an input of `Client.Search`, so the model does not know which reply goes with which request, and it does not cover timing or overlapping searches. Nor does it cover a callback that calls `search` again from one of the synchronous `null` calls (lines 57, 61, 65): because `options` is the shared `defaultOptions` object itself (line 53), the inner call would change the options that lines 69-85 of the outer call then read, whereas the model reads a snapshot of the merged options.
- `JSON.parse` (line 95): the body arrives already parsed. A body that fails to parse, and so throws, is not modelled.
- `querystring.stringify` and the base URL (lines 42, 87): the request is the ordered list of name/value pairs, not the encoded URL.
- `extend` (line 53) is modelled only by its effect: a shallow overwrite of the properties the caller passed. Properties passed as `undefined` count as not passed. An explicit `null` for key or field is copied.
- Option values of types the source does not expect are not modelled: a non-string query, a string or fractional offset or limit, a non-string key, type, order or lang. Numbers are integers.
- Field names inherited from `Object.prototype` would make `fields[name]` something other than `undefined`: a function for "constructor" or "toString", whose source text `+` would then put in front of the query, and an object for "__proto__", which gives "[object Object]". The model treats every name outside the keyword table as giving "undefined".
- Caller options that name properties other than the seven are not modelled. `extend` would copy them into the defaults too, but `search` never reads them.
- Response fields are modelled at their documented JSON types. An `items` that is not an array, `null` entries in `items`, or fields of other types are not modelled.
