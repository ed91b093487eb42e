# Documentation bot lookup handlers, modelled in Dafny

This project models the decision logic of the documentation-lookup command handlers
of a Discord bot that answers questions about Go packages (`bot/handlers.go`):

- **Dispatch** (`HandleDoc`): how the fields of a lookup command pick the help card,
  package info, a function lookup, a method lookup (`Recv.Name`), a type lookup, or an
  error card.
- **Lookup and render** (`funcResponse`, `methodResponse`, `typeResponse`,
  `pkgResponse`, `errResponse`): case-insensitive matching over the page's ordered
  functions and types, rendering of every match in page order, the stored casing used
  in title and footer, and the 2000/1950-character trim rule.
- **Document cache** (`getDoc`): the lookup in `StdlibCache` in front of the
  documentation fetch.
- **Page sessions** (`FuncsPages`, `TypesPages`, `PagesShortResponse`): page limit,
  the new `ReactionListener` record and its registration under the sent message's ID.

All state is explicit. The cache is a `map<string, Option<Doc>>`, where `None` is a
key present with a nil document. The listener registry is a `map<string, Listener>`.
The outcome of the documentation fetch (`fetched`) and of sending the first page
(`send`) are inputs. So are the current time and the page formatter.

Modules: `Options`, `Text` (case folding, `Split`, decimal counts), `Seqs` (ordered
filter and concatenation), `Docs` (the page records), `Embeds` (cards and trimming),
`Cache`, `Lookup`, `Dispatch`, `Pages`.

Three behaviours of the code are worth knowing before reading the model:

- `getDoc` never adds a key. It stores a fetched document only under a key that is
  already in the cache, and it replaces a present nil entry with the fetched
  document. `Cache.ReplayKeepsKeys` states that the key set never changes.
- The page limit is `ceil(count / 10)`, so an empty list gives a page limit of 0
  (not at least 1). A session opened on an empty list therefore starts on page 1
  of 0 (`Pages.EmptyListSessionStartsPastLimit`).
- A trimmed body is 1950 characters plus the notice. That makes 2013 characters
  for functions and 2012 for types and methods, so it is longer than the 2000
  characters the notice mentions (`Embeds.TrimmedExceedsLimit`).

## Model

| member | source | states |
|---|---|---|
| Text.ToLower | bot/handlers.go:36 | lower-casing keeps the length and lower-cases each character on its own |
| Text.FoldEq | bot/handlers.go:72 | `strings.EqualFold` as ASCII case folding: names equal up to case have the same length, and equal names are equal up to case |
| Text.FoldEqCharwise | bot/handlers.go:121 | two strings are equal up to case exactly when they have the same length and agree, position by position, after lower-casing |
| Text.Split | bot/handlers.go:30 | `strings.Split` at one character: at least one piece, no piece holds the separator, at least two pieces exactly when the separator occurs, and the first piece is the text before the first separator |
| Text.JoinSplit | bot/handlers.go:29-31 | joining the pieces with the separator gives back the split string |
| Text.SplitFirstTwo | bot/handlers.go:38-40 | the first piece is the dot-free text before the first dot; the second is the dot-free text between the first and second dots, a prefix of the rest |
| Text.NatToString | bot/handlers.go:162 | a count is rendered as a non-empty string of decimal digits without a leading zero |
| Text.ParseNatToString | bot/handlers.go:265 | a rendered count reads back as the same number |
| Text.Quote | bot/handlers.go:65 | `%q` wraps the text in one character on each side and keeps it intact in between |
| Seqs.Filter | bot/handlers.go:71-72 | the selected entries are exactly the entries of the list that satisfy the test, never more than the list holds, and all of it when every entry passes |
| Seqs.FilterAppend | bot/handlers.go:71-85 | selection over two stretches of a list is the selection of the first followed by that of the second, so matches keep list order |
| Seqs.Concat | bot/handlers.go:75-83 | with non-empty blocks, the concatenation is empty exactly when there is nothing to render; one entry renders as its block |
| Seqs.ConcatAppend | bot/handlers.go:120-133 | rendering two stretches gives the first's text followed by the second's |
| Embeds.ErrResponse | bot/handlers.go:102-107 | an error card is titled "Error", carries the message as its description and has no footer |
| Embeds.Trim | bot/handlers.go:90-92 | a body of at most 2000 characters is kept; a longer one keeps its first 1950 characters followed by the notice |
| Embeds.TrimIdempotent | bot/handlers.go:138-140 | trimming an already trimmed body changes nothing, whatever the notice |
| Embeds.TrimmedExceedsLimit | bot/handlers.go:197-199 | with the handlers' notices a trimmed body is 2013 (functions) or 2012 (types, methods) characters long |
| Cache.GetDoc | bot/handlers.go:210-225 | a usable cached document is returned without fetching and without changing the cache; otherwise the fetch outcome is returned; a failure leaves the cache unchanged; an absent key is never added; only the asked key can change, and then to the fetched document |
| Cache.HitIgnoresFetch | bot/handlers.go:212-218 | on a cache hit, the result does not depend on what the fetch would give |
| Cache.PresentKeyStaysCached | bot/handlers.go:220-223 | after a successful lookup of a present key, the next lookup of it returns the same document and cache whatever the fetch would give |
| Cache.AbsentKeyAlwaysFetched | bot/handlers.go:212-217 | a key not in the cache is not stored, so the next lookup again returns whatever the fetch gives |
| Cache.ReplayKeepsKeys | bot/handlers.go:221-223 | no series of lookups adds or removes a cache key |
| Cache.ReplayKeepsHits | bot/handlers.go:212-224 | once a key holds a document, no series of lookups changes it |
| Lookup.FuncBlock | bot/handlers.go:75-83 | a function's block is its signature in backquotes, then a newline and its first comment line (or `*no information*` when it has none), then, only for a non-empty example, a blank line, `Example:` and the example in a ```go fence |
| Lookup.MethodBlock | bot/handlers.go:183-191 | a method's block is its signature in backquotes, then a newline and its first comment line (or `*no info*`), then, only for a non-empty example, a newline, `Example:` and the example in a plain ``` fence |
| Lookup.TypeBlock | bot/handlers.go:126-131 | a type's block is its signature in a ```go fence followed by a newline and its first comment line (or `*no information*`), and nothing else |
| Lookup.BodiesEmptyIffNoMatch | bot/handlers.go:87-89 | the code's empty-message test holds exactly when no entry matched, for all three lookups |
| Lookup.ScanFunctions | bot/handlers.go:68-85 | the loop as written, comparing against the running name, builds the body of all plain functions equal up to case in list order, and ends with the stored name of the last match, or the typed name when nothing matched |
| Lookup.ScanMethods | bot/handlers.go:176-193 | the loop as written builds the body of all methods whose name and receiver type match up to case, and ends with the last match's stored name |
| Lookup.ScanTypes | bot/handlers.go:118-133 | the loop as written builds the body of all types whose name matches up to case, and ends with the last match's stored name |
| Lookup.FuncResponse | bot/handlers.go:59-100 | the card is titled "Error" exactly when the fetch failed or no plain function matches; otherwise its description is the trimmed body, and title `pkg: func N` and footer `URL#N` use the stored name N of the last matching function of the page |
| Lookup.MethodResponse | bot/handlers.go:167-207 | "Error" exactly when the fetch failed or no method matches name and receiver; otherwise the trimmed body, with title `pkg: func(recv) N` keeping the typed receiver and the stored name N of the last matching method in title and footer |
| Lookup.TypeResponse | bot/handlers.go:109-149 | "Error" exactly when the fetch failed or no type matches; otherwise the trimmed body, with title `pkg: type N` and footer `URL#N` for the stored name N of the last matching type |
| Lookup.PkgResponse | bot/handlers.go:155-165 | the package card is an error card exactly when the document could not be had; it never has a footer |
| Lookup.PkgResponseReportsCounts | bot/handlers.go:160-163 | the package card's description holds two decimal numbers that read back as the type and function counts |
| Lookup.BodiesFollowPageOrder | bot/handlers.go:71-85 | every matching entry contributes its block in list order: the body of a concatenated list is the concatenation of the bodies |
| Lookup.FuncAndMethodMatchesDisjoint | bot/handlers.go:179-181 | no entry is matched by both a function lookup and a method lookup |
| Lookup.LookupsIgnoreCase | bot/handlers.go:72-74 | when something matches, names equal up to case give the same card; for methods, receivers equal up to case give the same body |
| Lookup.MarshalFoundInAnyCase | bot/handlers.go:94-97 | a function stored as `Marshal` is found by `marshal` and `MARSHAL`, and the title and footer use `Marshal` |
| Dispatch.NameRoute | bot/handlers.go:29-34 | a name with a dot routes to a method lookup with dot-free receiver and method name; any other name to a function lookup of that name |
| Dispatch.IsFuncKeyword | bot/handlers.go:37 | the function keywords `func`, `function` and `fn` are already lower case and none of them is `type` |
| Dispatch.Classify | bot/handlers.go:21-51 | the route by field count: 0 silent, 1 help, 2 package info, 3 a function or method lookup, 4 by lower-cased keyword (func/function/fn, type, anything else unsupported), 5 or more too many; the package is the second field and the name the last |
| Dispatch.MethodRouteSplitsAtDots | bot/handlers.go:29-31 | a method lookup's receiver is the text before the first dot and its method the text between the first and second dots |
| Dispatch.Respond | bot/handlers.go:21-51 | only the empty command gets no card; help, unsupported and too-many cards do not touch the cache; the unsupported card is the error card `Unsupported search type "<kind>"` followed by the two valid options, and too many fields give the error card "Too many arguments." |
| Dispatch.HandleDoc | bot/handlers.go:18-57 | a card is sent exactly when the command has a field; the cache keys never change; 1 field gets the help card and 5 or more "Too many arguments." without touching the cache; an unsupported keyword gets the error card naming the typed keyword and listing `func` and `type`, with the cache unchanged |
| Dispatch.FetchFailureAnswersError | bot/handlers.go:53-56 | when the package is not cached and the fetch fails, every command of two or more fields gets an error card and the cache stays as it was |
| Dispatch.HandleDocRunsResponses | bot/handlers.go:26-45 | two fields answer with the package card, three with the function card (or, for a dotted name, the method card of its first two pieces), and `type` plus a name with the type card, each on the cache that response leaves |
| Dispatch.FuncKeywordIsOptional | bot/handlers.go:35-43 | `cmd pkg func name` answers exactly like `cmd pkg name` |
| Pages.PageLimitIsCeiling | bot/handlers.go:251 | the page limit is the least number of ten-item pages holding every item, 0 exactly for an empty list |
| Pages.PageLimit | bot/handlers.go:251 | the page limit is a number of ten-item pages that holds every item, one page fewer would not, and it is 0 exactly for an empty list |
| Pages.PageLimitExamples | bot/handlers.go:299 | 0, 10, 11 and 25 items give 0, 1, 2 and 3 pages |
| Pages.PagesShortResponse | bot/handlers.go:228-233 | the pages help card's title is "Help " followed by the command's name, with no footer |
| Pages.NewListener | bot/handlers.go:252-259 | a new session is of the subject's kind (`functions` or `types`), on page 1, owned by the requester, holds the document and the time, and its page limit is the ceiling of the item count over 10 |
| Pages.Opened | bot/handlers.go:246-274 | after `getDoc`: a failed lookup gives an error card and no new session; a document gives a card titled with the subject, and the session is registered under the sent message's ID only when the page was sent |
| Pages.OpenPages | bot/handlers.go:236-281 | no card for no fields; the help card and no state change for field counts other than 2; an error card and no new session when the document cannot be had; the sent message's ID is mapped to the new session exactly when the page was sent |
| Pages.FuncsPages | bot/handlers.go:244-275 | a sent functions page registers a "functions" session on page 1 for the author with limit ceil(#functions/10); other field counts send the `getfuncs` help card |
| Pages.TypesPages | bot/handlers.go:292-323 | a sent types page registers a "types" session on page 1 for the author with limit ceil(#types/10); other field counts send the `gettypes` help card |
| Pages.OpenAddsOneSession | bot/handlers.go:268-274 | opening a session on a new message adds exactly that key to the listener map and keeps every other session |
| Pages.FirstPageFooterShowsLimit | bot/handlers.go:261-267 | the first page's footer is `Page 1/` followed by digits that read back as the page limit |
| Pages.EmptyListSessionStartsPastLimit | bot/handlers.go:251-255 | a session on an empty list starts on page 1 with a page limit of 0 |
| Pages.NonEmptyListSessionStartsInRange | bot/handlers.go:299-303 | a session on a non-empty list starts within its pages |

## Left out

- Discord I/O (`ChannelMessageSendEmbed`, `MessageReactionAdd`) is not modelled. `HandleDoc` gives the card it would send. The page handlers take the send outcome as an input. Adding the three reactions is not modelled.
- `docs.GetDoc` (package scraping) is not part of this model. Its outcome is the input `fetched`. The model assumes it returns a non-nil document whenever it returns no error. Under that assumption the pages handlers' `doc == nil` test (bot/handlers.go:247, 295) never fires.
- `formatForMessage`, `MakeTimestamp`, the `ReactionListener` type's declaration, `pageListeners`, `leftArrow`/`rightArrow`/`destroyEmoji`, reaction navigation and any idle eviction are not part of this model, because their code is not in the modelled file. The formatter and the time are inputs.
- The `msg == nil` fallback of `HandleDoc` (bot/handlers.go:53-55) has no branch in the model. Every response builds a card, so the fallback cannot be reached. `Dispatch.HandleDoc` states that a card is sent for every non-empty command.
- `strings.Fields` is not modelled: the command arrives already split into fields. The unused `arguments` and `prefix` parameters of `HandleDoc` are dropped.
- Text.ToLower: folds ASCII letters only, not the full Unicode case folding of `strings.ToLower`/`strings.EqualFold`.
- Text.Quote: does not model the escaping Go's `%q` applies to quotes, backslashes and control characters.
- Strings are sequences of characters, each standing for one byte. Go's `len` and `msg[:1950]` count bytes and can cut a multi-byte character; the model does not represent UTF-8.
- Pages.PageLimit: integer ceiling division replaces `math.Ceil` on float64. The two agree for every count below 2^53.
- Pages.PageLimitIsCeiling: states the integer ceiling, for the same reason as `Pages.PageLimit`.
- Concurrent access to the shared cache and listener maps is not modelled; the model is sequential.
