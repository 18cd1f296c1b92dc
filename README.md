# mealie-mcp-server, modelled in Dafny

mealie-mcp-server is a small JSON-RPC 2.0 server speaking the Model Context
Protocol over standard input and output. It offers two tools backed by the
Mealie recipe manager's REST API: `search_recipes` and `get_recipe_by_id`.
This project models its core and proves properties of the model. The core has
four parts:

- **The line protocol** (`src/mcp.js`): one JSON reply per input line. The
  startup event, parse errors, the envelope check, and the `initialize`,
  `tools/list`, `tools/call`, `ping` and `shutdown` methods. Tool dispatch.
  The caught-error conversion to a numeric code and a message.
- **The server object** (`Mcp.StdioServer`): a class whose `output` and
  `terminated` fields grow line by line. Its invariant ties the output to a
  pure transcript function of the lines read so far.
- **The two tools** (`src/tools.js`): argument validation against the JSON
  Schemas, the request each handler sends, how the Mealie response is
  reshaped (fallbacks, tag names, links), and how failures are rewrapped.
- **The schemas and error text**: the four JSON Schemas of `src/schemas.js`
  (draft-07), each proved equivalent to a plain statement of what it accepts.
  The `normalizeError` message of `src/http.js`.

Modules:

- `Wrappers`: `Option`.
- `JsValues`: JSON values and the JavaScript coercions the program relies on:
  - truthiness, `||` and `??`;
  - `String(...)`, `JSON.stringify` and property reads;
  - thrown `Error` objects.
- `Schemas`: the schemas, their meaning, and their JSON form.
- `Http`: `normalizeError`.
- `Tools`: the tools.
- `Mcp`: the server.

Every proof is done by the Dafny verifier. The model treats the following as
parameters of `Tools.Env`:

- the Mealie API, as a function from request to outcome;
- the validator's error list for a rejected payload;
- the HTTP client's base URL.

The process id in the startup event is an argument of the
`Mcp.StdioServer` constructor.

## Model

| member | source | states |
|---|---|---|
| JsValues.MapAll | src/tools.js:48-57 | `xs.map(f)` succeeds exactly when every element maps; it then maps each element in order; otherwise it throws the error of the first element that throws |
| Schemas.StringArraySchemaMeaning | src/schemas.js:18 | `{type: "array", items: {type: "string"}}` accepts exactly the arrays of strings |
| Schemas.SearchRecipesInputMeaning | src/schemas.js:3-25 | Search arguments conform exactly when: <br>• they are an object with a non-empty string `query`; <br>• `limit` and `perPage` are integers in [1, 100] when present; <br>• `page` is an integer of at least 1 when present; <br>• `tags` is an array of strings when present; <br>• `requireAllTags` is a boolean when present; <br>• there is no other key. |
| Schemas.SearchResultItemMeaning | src/schemas.js:32-43 | A search result item conforms exactly when it is an object with `id` and `title`, and each declared member it has is of its declared type |
| Schemas.SearchRecipesOutputMeaning | src/schemas.js:27-48 | A search output conforms exactly when `results` is its only key and holds an array of conforming items |
| Schemas.GetRecipeOneOfMeaning | src/schemas.js:56-59 | The `oneOf` keyword holds exactly for objects with exactly one of `id` and `slug`; a non-object satisfies both subschemas, so it fails |
| Schemas.GetRecipeInputMeaning | src/schemas.js:50-61 | Get-recipe arguments conform exactly when they are an object with exactly one of `id` and `slug`, each a non-empty string, and no other key |
| Schemas.GetRecipeOutputMeaning | src/schemas.js:63-77 | A recipe output conforms exactly when it has `id` and `title`, only the eight declared keys, and each declared member is of its declared type |
| Http.NormalizeErrorReads | src/http.js:67-80 | Each kind of failure reads only some fields, so two failures of one kind that agree on those fields get the same message: <br>• a status failure reads only the response; <br>• a network failure reads only the code and the message; <br>• a timeout reads nothing; <br>• any other error reads only its name and message. |
| Http.MessageKeepsDetail | src/http.js:67-80 | The upstream detail ends the message: the serialised body of a status failure, the client's message of a network failure. An unclassified error with a message is reported by that message alone. |
| Http.ResponseTakesPrecedence | src/http.js:68-72 | With a response, the message does not depend on `code` or `request` |
| Http.CodeTakesPrecedenceOverRequest | src/http.js:73-75 | Without a response, a truthy code decides the message whatever `request` holds |
| Http.MessagePrefixes | src/http.js:67-78 | Status failures start with "HTTP "; network-code and timeout failures start with "Network" |
| Http.HttpAndNetworkFailuresDiffer | src/http.js:67-78 | A status failure's message never equals a network-code or timeout failure's message |
| Mcp.FindTool | src/mcp.js:36 | The position found holds a tool of that name, and no earlier tool has that name; when none is found, no tool has that name |
| Mcp.CallToolDispatch | src/mcp.js:35-42 | A call runs a handler exactly when `name` is truthy, converts to a property key, and names a registered tool. It runs that tool's handler with `args`, or `{}` when `args` is falsy, and ends as the handler ends. A truthy name that does not convert throws the TypeError of the conversion. Any other name throws code -32601 with "Unknown tool '<name>'". |
| Mcp.UnconvertibleNameThrows | src/mcp.js:36 | The name `{"toString": 1}` cannot be made a property key. The call as written and the corrected call both throw "Cannot convert object to primitive value", which the server reports with -32000. |
| Mcp.InheritedNameAsWritten | src/mcp.js:35-42 | As written, the name "constructor" makes `callTool` throw a TypeError, reported as -32000 "tools[name].handler is not a function". The corrected dispatch reports -32601 "Unknown tool 'constructor'". |
| Mcp.ResponseMembers | src/mcp.js:61 | A response object reads back "jsonrpc": "2.0", the id (absent when undefined) and its one member, and has no other key |
| Mcp.ResultResponseWellFormed | src/mcp.js:61 | A result response is well formed and carries the given id and result |
| Mcp.ErrorResponseWellFormed | src/mcp.js:98 | An error response is well formed, carries the id, has no result, and carries a numeric code and a string message |
| Mcp.CaughtCodeIsNumber | src/mcp.js:96 | The code reported for a caught error is always a number |
| Mcp.RequestReplyWellFormed | src/mcp.js:44-100 | A request that names a method gets a well-formed response carrying its own id |
| Mcp.ReplyWellFormed | src/mcp.js:102-117 | Every input line gets a well-formed JSON-RPC response: "jsonrpc" is "2.0", exactly one of result and error, and an error has a numeric code and a string message |
| Mcp.ReplyEchoesId | src/mcp.js:102-117 | A handled request gets its id back unchanged (no id key when it had none). Any other parsed line gets `id ?? null`. An unparsable line gets null. |
| Mcp.MalformedLineReply | src/mcp.js:104-110 | An unparsable line gets -32700 "Parse error" with a null id and does not stop the server |
| Mcp.InvalidEnvelopeReply | src/mcp.js:112-116 | A message that is falsy, lacks "jsonrpc": "2.0", or has neither a truthy method nor an id gets -32600 "Invalid Request" and does not stop the server |
| Mcp.MissingMethodReply | src/mcp.js:47-51 | A request whose method is missing, falsy or not a string gets -32600 "Invalid Request: missing method" with `id ?? null`, whatever the tools |
| Mcp.UnknownMethodReply | src/mcp.js:90-92 | A method other than the five known ones gets -32601 "Unknown method '<method>'", which contains the method name verbatim |
| Mcp.ConstantReplies | src/mcp.js:55-80 | `initialize` and `ping` answer with fixed results whatever the tools, and do not stop the server |
| Mcp.ShutdownReply | src/mcp.js:82-88 | A line stops the server exactly when it is a valid request for `shutdown`, which is answered with `{ok: true}` |
| Mcp.ToolEntryMembers | src/mcp.js:27-33 | A tool's listing holds exactly its name, its description and its input schema, or `{type: "object", properties: {}}` when it has none |
| Mcp.ToolsListReply | src/mcp.js:65-69 | `tools/list` answers `{tools}` listing every registered tool once, in order |
| Mcp.ToolCallReply | src/mcp.js:71-99 | `tools/call` answers with the handler's value. When the call throws, it answers with the error's numeric code (else -32000) and its message (else its string form). A name that cannot be made a property key gets -32000 "Cannot convert object to primitive value". Any other unknown tool gets -32601. The server keeps running. |
| Mcp.TranscriptSnoc | src/mcp.js:102-117 | Reading one more line appends its reply unless a shutdown came before, and stops exactly when it or an earlier line was a shutdown |
| Mcp.TranscriptAnswers | src/mcp.js:102-117 | The k-th reply of a session answers the k-th line; there are never more replies than lines |
| Mcp.TranscriptStops | src/mcp.js:84-86 | Replies continue until the input ends or the first shutdown; that shutdown is the last line answered |
| Mcp.TranscriptShape | src/mcp.js:102-117 | Combines the two: per-line answers, and the stop at the first shutdown |
| Mcp.NothingAfterShutdown | src/mcp.js:84-86 | After a shutdown at line k, at most k + 1 replies are ever written |
| Mcp.EveryLineAnswered | src/mcp.js:102-117 | Without a shutdown, every line is answered exactly once |
| Mcp.StdioServer.constructor | src/mcp.js:13-25 | A new server has written only the startup event, has read no line, and is running |
| Mcp.StdioServer.Write | src/mcp.js:20-22 | Appends exactly one object to the output |
| Mcp.StdioServer.HandleRequest | src/mcp.js:44-100 | Appends exactly the reply for the request, and ends the server exactly on `shutdown` |
| Mcp.StdioServer.HandleLine | src/mcp.js:102-117 | Keeps the invariant that the output is the startup event followed by the transcript of the lines read. Before shutdown it appends that line's reply; after shutdown it writes nothing. |
| Mcp.StdioServer.Serve | src/mcp.js:102-117 | Reading a sequence of lines keeps the invariant, and writes nothing once the server has shut down |
| Tools.ValidationFailureReport | src/tools.js:12-21 | Validation passes exactly when the payload conforms. A rejection has code VALIDATION_ERROR and a message containing every rendered error, or "Invalid payload" when the report is missing or empty. |
| Tools.ValidationMessageNonEmpty | src/tools.js:16 | The validation message is never empty |
| Tools.StripTrailingSlashes | src/tools.js:56 | The result is the input without its run of trailing slashes: a prefix, not ending in "/", and only slashes removed |
| Tools.RecipeUrlIgnoresTrailingSlash | src/tools.js:56 | A trailing slash on the base URL does not change a recipe link |
| Tools.RecipeUrlSingleSlash | src/tools.js:111 | The link is the stripped base, "/recipe/" and the reference, with the base not ending in "/" |
| Tools.TagNames | src/tools.js:53-55 | The tag names kept are truthy, no more than the tags, and each is the name of some tag |
| Tools.TagNamesSelects | src/tools.js:53-55 | There are increasing positions, one per name kept, such that: <br>• each name kept is the name of the tag at its position; <br>• a position is listed exactly when that tag's name is truthy. <br>So the names of the tags with a truthy name are kept, in order, each once, and nothing else. |
| Tools.TagNamesKeepsNamedTags | src/tools.js:97-102 | When every tag has a non-empty name, the names are kept one per tag, in order |
| Tools.TagNamesOfNames | src/tools.js:54 | A list of non-empty string tags passes through unchanged |
| Tools.TagNamesAreStrings | src/tools.js:97-102 | Tags whose names are strings when truthy give only string names |
| Tools.SearchValidatesFirst | src/tools.js:29-31 | Rejected search arguments fail with VALIDATION_ERROR and the validation message before any request; accepted ones send exactly the search request |
| Tools.SearchRequestForwards | src/tools.js:31-44 | For accepted arguments the request goes to "/api/recipes" and carries: <br>• `search` set to the query; <br>• `perPage` set to the limit, or 10 when there is none, always in [1, 100]; <br>• `tags` exactly when the caller gave a non-empty list. <br>`page`, `perPage` and `requireAllTags` of the arguments are not forwarded. |
| Tools.SearchFailuresRewrapped | src/tools.js:29-67 | For accepted arguments, a fetched response that shapes without error is returned as shaped. Every failure, rejected or thrown while shaping, ends with MEALIE_HTTP_ERROR and the normalized message. |
| Tools.SearchItemThrows | src/tools.js:48-57 | An item fails exactly when it is null or its id or slug cannot be converted to a string; a non-null item fails only with the conversion's TypeError |
| Tools.ShapeSearchOnePerItem | src/tools.js:46-59 | Shaping fails exactly when an item fails; otherwise `{results}` has one result per item, in order |
| Tools.SearchResultObjectMembers | src/tools.js:48-57 | A search result reads back its id, title, summary, tags and url, and has no slug |
| Tools.SearchItemFallbacks | src/tools.js:49-56 | A non-null item fails exactly when its id or slug cannot be converted to a string, with the conversion's TypeError. Otherwise the result's fallbacks are: <br>• id: the item's id, else its slug, else ""; <br>• title: its name, else its title, else "Untitled"; <br>• summary: its description, else its summary, else ""; <br>• tags: its tag names; <br>• url: the link to its slug, else its id. |
| Tools.SearchItemConforms | src/tools.js:48-57 | An item whose id and slug convert to strings, and whose copied fields are strings when truthy, gives a result the item schema accepts |
| Tools.SearchOutputConforms | src/tools.js:46-59 | With non-null, string-valued items whose id and slug convert to strings, the search output conforms to the declared output schema |
| Tools.SlugOnlyRequestAsWritten | src/tools.js:77-82 | Arguments `{slug: "pasta"}` are accepted, yet the handler as written requests "/api/recipes/undefined" |
| Tools.GetRecipeRequestsNamedRecipe | src/tools.js:76-82 | Accepted arguments request exactly "/api/recipes/" plus the non-empty id or slug given. Rejected ones fail with VALIDATION_ERROR before any request. |
| Tools.FetchRecipeRewrapped | src/tools.js:76-120 | For accepted arguments and whatever key the handler asks for, one request for "/api/recipes/" and that key is sent. A fetched recipe that shapes without error is returned as shaped. Every failure ends with MEALIE_HTTP_ERROR and the normalized message. |
| Tools.GetRecipeAsWrittenRewrapped | src/tools.js:76-120 | The handler as written, which asks for `args.id`, sends that one request and rewraps every failure the same way; slug-only arguments ask for "undefined" |
| Tools.GetRecipeFailuresRewrapped | src/tools.js:76-120 | The corrected handler, which asks for `id ?? slug`, sends the one request naming the recipe given and rewraps every failure the same way |
| Tools.ShapeRecipeFailsInOrder | src/tools.js:83-112 | Shaping reads the ingredients, the instructions and the tags, then converts the id and the link reference. The first of these that fails decides the error, and shaping succeeds exactly when none fails. The tags fail only when their list is not an array. |
| Tools.EmptyRecipeBodyFails | src/tools.js:83-86 | A missing or null body fails with the TypeError for reading `recipeIngredient` |
| Tools.IngredientsOnePerEntry | src/tools.js:85-89 | Ingredients are a truthy `recipeIngredient` as given. Otherwise they succeed exactly when `ingredients` (or `[]`) is an array without null entries: a non-array fails calling `map`. On success there is one line per entry, in order. |
| Tools.InstructionsOnePerStep | src/tools.js:91-95 | Instructions come from a truthy `recipeInstructions`, else from `steps` or `instructions` (or `[]`). They succeed exactly when the list used is an array without null steps; a non-array fails calling `map`. On success there is one entry per step, in order, string steps of `recipeInstructions` kept as they are. |
| Tools.RecipeFallbacks | src/tools.js:104-112 | A recipe's fallbacks: <br>• id: the recipe's id, else the requested key; <br>• title: its name, else its title, else "Untitled"; <br>• description: its description, else ""; <br>• ingredients, instructions and tags: as shaped, with every tag name truthy; <br>• url: the link to its slug, else to the key. |
| Tools.IngredientsAreStrings | src/tools.js:85-89 | A recipe with string-valued fields gives a list of string ingredients |
| Tools.InstructionsAreStrings | src/tools.js:91-95 | A recipe with string-valued fields gives a list of string instructions |
| Tools.RecipeTagsAreStrings | src/tools.js:97-102 | A recipe with string-valued fields gives a list of string tags |
| Tools.RecipeObjectMembers | src/tools.js:104-112 | A recipe output reads back each of its seven members and has no slug |
| Tools.RecipeObjectKeys | src/tools.js:104-112 | A recipe output has only keys its schema declares |
| Tools.RecipeObjectAccepted | src/tools.js:104-112 | A recipe output built from strings and lists of strings is accepted by the recipe output schema |
| Tools.RecipeOutputConforms | src/tools.js:104-112 | With string-valued fields, an id and slug that convert to strings, and a requested key that converts, shaping succeeds and the recipe output conforms to the declared output schema |
| Tools.RegistryDispatch | src/tools.js:23-123 | For the registered tools, `tools/call` runs the search handler for a name that converts to "search_recipes", and the get-recipe handler for "get_recipe_by_id". A falsy name or any other convertible name fails with -32601. |
| Tools.RegistryListing | src/tools.js:23-123 | For the registered tools, `tools/list` lists exactly two entries: "search_recipes" first, then "get_recipe_by_id". Each carries its description and the JSON form of its input schema. |
| Tools.RejectedSearchReply | src/tools.js:12-30 | Through the server, a search call with rejected arguments is answered with -32000, since VALIDATION_ERROR is not a number, and with the validation message |

## Left out

- Numbers are integers only. Fractions, exponents, `-0`, NaN, and `String()` of large numbers are not modelled.
- Text framing is not modelled. A line is either unparsable or the JSON value `JSON.parse` yields. The output is a sequence of JSON values, not the text `JSON.stringify` writes.
- Objects with a repeated key read as the last member, as `JSON.parse` does. The model keeps members in text order. JavaScript lists integer-like keys such as "0" first, so the order can differ for such keys, for instance in the serialised body of an HTTP-status message. `JsValues.Stringify` writes a repeated key as often as it appears, where JavaScript writes it once, at its first position, with the last value.
- Concurrency is not modelled. The line listener is `async`, and readline does not wait for it.
  - `await callTool(...)` (src/mcp.js:72) defers every `tools/call` reply by at least one turn of the event loop, even an immediate -32601 or VALIDATION_ERROR.
  - When several lines arrive in one chunk, the synchronous replies of the later lines are written before it.
  - `shutdown` calls `process.exit(0)` (src/mcp.js:86), which drops every `tools/call` reply still pending, whether it waits on Mealie or only on that turn.
  - The model handles each line to completion before the next.
- Mcp.TranscriptAnswers: holds for sequential handling only; in the program, replies to `tools/call` can come out of order.
- Mcp.TranscriptStops: holds for sequential handling only; a shutdown can drop pending `tools/call` replies.
- Mcp.NothingAfterShutdown: holds for sequential handling only, for the same reason.
- Mcp.EveryLineAnswered: holds for sequential handling only, for the same reason.
- Mcp.ToolCallReply: stated for the corrected dispatch of the first Findings row. For a name inherited from `Object.prototype` (such as "constructor"), the program as written answers -32000 "tools[name].handler is not a function"; `Mcp.InheritedNameAsWritten` states this.
- Mcp.ReplyEchoesId: the server model runs the corrected `Mcp.CallTool`, not `Mcp.CallToolAsWritten`; inherited names are answered as unknown tools.
- Mcp.TranscriptSnoc: the same corrected dispatch; so do `Mcp.TranscriptShape`, `Mcp.RequestReplyWellFormed` and `Mcp.ReplyWellFormed`.
- Mcp.StdioServer.HandleRequest: the same corrected dispatch; so do `Mcp.StdioServer.HandleLine` and `Mcp.StdioServer.Serve`.
- Tools.RegistryDispatch: stated for the registry `Tools.Registry` builds, which holds the corrected `Tools.GetRecipeById`, dispatched through the corrected `Mcp.CallTool`; these are the corrected halves of the two Findings rows. In the program, slug-only arguments request "/api/recipes/undefined" (`Tools.SlugOnlyRequestAsWritten`), and an inherited name such as "constructor" gets -32000 rather than -32601 (`Mcp.InheritedNameAsWritten`).
- `rl.close()`, `onShutdown` and `process.exit(0)` are modelled only as the `terminated` flag. After it is set, no line is handled.
- The validator's error list (paths, messages, order) is a parameter of `Tools.Env`. Whether a payload is accepted is decided by the model's own reading of the draft-07 keywords in use.
- The Mealie API and the HTTP client are one function from request to outcome. This leaves out:
  - the configuration in src/config.js and the client setup in src/http.js (token, TLS, timeouts, debug logging);
  - how axios serialises the `tags` array.
- The `console.error` logging in the handlers' catch blocks is left out; it only writes to standard error.
- src/index.js is not part of this model: its heartbeat lines and its fatal-error exit. Neither is src/quick-test.js.
- The output schemas are declared but never enforced by the server. The model proves when the outputs conform, but does not reject outputs that do not.
- The registry is an object keyed by tool name. The model keeps its values in order and uses each tool's `name` as its key; in the source these coincide.
- TypeError texts follow V8's wording for the three kinds thrown: reading a property of null or undefined, calling a non-function, and converting to a string an object whose own `toString` member is not a function.
- `normalizeError` converts the client error's `code` with `${...}`. An object code with its own `toString` member would make that conversion throw; the model reads it as "[object Object]". The HTTP client sets only string codes.
- The `|| []` after the ingredient lines (src/tools.js:88) is never reached, because an array is truthy. The model omits it.

## Findings

| source | as written | input that shows it | evidently intended | confidence | as-written member | corrected member |
|---|---|---|---|---|---|---|
| src/mcp.js:36 | `!tools[name]` also accepts the names every object inherits from `Object.prototype`. `tools[name].handler` is then undefined, so calling it throws a TypeError that is answered with -32000 | `tools/call` with params `{"name": "constructor"}` | -32601 "Unknown tool 'constructor'", as for any other unregistered name | not executed | Mcp.InheritedNameAsWritten | Mcp.CallToolDispatch |
| src/tools.js:78 | The handler reads only `args.id`, although the schema accepts arguments that carry only `slug`. Such a call requests "/api/recipes/undefined" | `get_recipe_by_id` with args `{"slug": "pasta"}` | Request "/api/recipes/pasta", the recipe named by `id ?? slug` | not executed | Tools.SlugOnlyRequestAsWritten | Tools.GetRecipeRequestsNamedRecipe |
