# Breezy CRM panel: a Dafny model of its proxy and its browser logic

The system is a small customer-success tool for a thermostat company. It has
two parts, and this project models the logic of both.

- An HTTP proxy (`server.js`). It relays contact and deal requests to a CRM
  service and asks a language-model API for insights about a customer. Every
  CRM endpoint shares one failure policy: the upstream status when there is
  one, else 500, and a body `{error, details}`.
- A browser panel (`public/app.js`). It builds the request bodies from its
  two forms, renders contacts and deals, fills the contact choice of the deal
  form, and turns the generated insight text into markup.

The modules follow the program:

| module | models |
|---|---|
| `JsValues` | JavaScript values; truthiness, `||`, `?.`, property reads that throw, `String(v)` |
| `Text` | `trim`, `split`, `join`, `indexOf` and concatenation on strings |
| `ServerErrors` | the shared `catch` policy, the two list queries, the contact-create body |
| `ServerDeals` | the deal-create body with its association edge, and the two-phase "deals of a contact" lookup |
| `ServerInsights` | the insights endpoint: key guard, prompt template, model request, reply, error classification |
| `PanelForms` | the contact form (its properties object is cleaned in place) and the deal form |
| `PanelRender` | the contacts table and the deals list, with their text defaults |
| `PanelDropdown` | the contact `<select>`, cut back to its placeholder in place and refilled |
| `InsightFormat` | `formatAIInsight`: heading pass, bold pass, paragraph pass |

Each request handler is modelled as a function of what its upstream calls
returned. A handler whose upstream call may not happen is split in two: a
plan (reply at once, make the call, or throw a TypeError), and a reply built
from the plan and the call's answer. The insights handler decides its plan
from the API key and the request body, before any call. The contact-deals
handler decides it from the answer of its first call, the association
lookup, and the planned call is the batch read. The contact-deals handler
also returns the upstream calls it makes, in order, so that which calls
happen is part of what is proved. A TypeError raised
inside a handler is a failure without an upstream response. Its message, the
clock's ISO timestamp and the environment's API key are parameters.

The panel's in-place updates are kept imperative:

- `PanelForms.PropertyBag` is the properties object; `delete` is its
  `Delete` method.
- `PanelDropdown.Select` is the `<select>` element, with `remove(i)` and
  `appendChild`.

The two loops of the source are methods proved against functions:

- `RemoveEmptyValues` against `Cleaned`;
- `PopulateContactDropdown` against `Populated`.

The properties of the panel are proved about those functions.

## Model

| member | source | states |
|---|---|---|
| `JsValues.Or` | server.js:172-173 | `a \|\| b` is `a` when `a` is truthy and `b` otherwise |
| `JsValues.Truthy` | server.js:175 | the falsy values are `undefined`, `null`, `false`, 0 and the empty string |
| `JsValues.ToJsString` | server.js:170-171 | `String(v)` as a template literal interpolates it: "undefined", "null", "true"/"false", the decimal digits of an integer, a string as it is, an array's elements joined with "," (nullish ones as ""), "[object Object]" |
| `JsValues.Get` | public/app.js:156-161 | a read of a data property gives the object's own property, or `undefined` for a missing property and for any other value |
| `JsValues.Read` | server.js:214 | a plain property read throws exactly on `null`/`undefined`, and otherwise reads like `?.` |
| `JsValues.At` | server.js:214 | indexing throws exactly on `null`/`undefined`; otherwise it gives an array element or a one-character string in range, an object's own property named by the digits of the index, and `undefined` in every other case |
| `Text.TrimStart` | public/app.js:596 | the result is a suffix of the input; what was dropped is whitespace; the result does not start with whitespace |
| `Text.TrimEnd` | public/app.js:596 | the result is a prefix of the input; what was dropped is whitespace; the result does not end with whitespace |
| `Text.TrimEnds` | public/app.js:602 | a non-empty trim starts and ends with non-whitespace |
| `Text.TrimEmptyIff` | public/app.js:596 | the filter's `p.trim()` is falsy exactly when the chunk is all whitespace |
| `Text.TrimKeepsCharacters` | public/app.js:602 | trimming adds no character |
| `Text.TrimStartSkipsWhitespace` | public/app.js:590 | trimming the start of whitespace followed by text gives the text |
| `Text.IndexOf` | public/app.js:590 | the first occurrence of the pattern; none exactly when the pattern does not occur |
| `Text.Split` | public/app.js:596 | `split` always gives at least one piece; `SplitAtFirst` and `SplitWithoutSeparator` determine the pieces |
| `Text.SplitAtFirst` | public/app.js:596 | the first piece ends at the first occurrence of the separator, and the rest is split from just after it |
| `Text.OccursInTail` | public/app.js:596 | an occurrence in the tail of a string is one in the string, one index further on |
| `Text.SplitIsLeftmost` | public/app.js:596 | `"\n\n\n".split("\n\n")` is `["", "\n"]`: the cut is leftmost, not just some cut into pieces without the separator |
| `Text.Trim` | public/app.js:596 | defined as `TrimStart` then `TrimEnd`; `TrimEnds`, `TrimEmptyIff` and `TrimKeepsCharacters` state what it keeps |
| `Text.Join` | public/app.js:590 | `join(sep)`: the pieces with `sep` between each two; `JoinSplit` states that it undoes `split` |
| `Text.JoinSplit` | public/app.js:596 | joining the pieces of a split with its separator gives the string back |
| `Text.SplitHeadIsPrefix` | public/app.js:596 | the first piece of a split is a prefix of the string |
| `Text.SplitPiecesAvoidSeparator` | public/app.js:596 | no piece of a split contains the separator |
| `Text.SplitPiecesFromString` | public/app.js:596 | every character of a piece comes from the string |
| `Text.SplitWithoutSeparator` | public/app.js:596 | a string without the separator splits into itself alone |
| `Text.SplitOfUnbrokenText` | public/app.js:596 | a string lacking the separator's first character splits into itself alone |
| `Text.MissingFirstCharacter` | public/app.js:590 | a pattern whose first character is absent does not occur |
| `Text.ConcatAppend` | public/app.js:603 | `join('')` of two lists is the join of each, concatenated |
| `Text.TrimOfFramed` | public/app.js:599 | a string framed by non-whitespace trims to itself |
| `Text.TrimmedFirstCharacter` | public/app.js:599 | the trim of a string without `c` does not start with `c` |
| `ServerErrors.ErrorStatus` | server.js:55 | the upstream status when there is a response with a non-zero status, else 500; never 0 |
| `ServerErrors.ErrorDetails` | server.js:57 | the upstream body when it is truthy, else the error's message |
| `ServerErrors.ErrorBody` | server.js:55-58 | the error body has exactly the keys `error` and `details`, holding the summary and the details |
| `ServerErrors.NormalizeError` | server.js:53-58 | the upstream status when there is a response with a non-zero status, else 500; a body of exactly `error` and `details`; `error` is the endpoint's summary; `details` is the upstream body when truthy, else the error's message |
| `ServerErrors.Relay` | server.js:52-58 | a relaying endpoint answers 200 with the upstream body verbatim on success, the normalised error otherwise |
| `ServerErrors.NormalizeErrorUniform` | server.js:106-109 | two endpoints answer one failure with the same status and details and with different summaries |
| `ServerErrors.SummaryInjective` | server.js:143-146 | the five endpoint summaries are pairwise distinct |
| `ServerErrors.ListContactsQuery` | server.js:46-49 | the contact list asks for contacts, at most 50, with the properties "firstname,lastname,email,phone,address" |
| `ServerErrors.ListDealsQuery` | server.js:97-100 | the deal list asks for deals, at most 50, with the properties "dealname,amount,dealstage,closedate,pipeline" |
| `ServerErrors.CreateContactBody` | server.js:67-69 | the contact-create body is exactly `{properties}`, the request's own |
| `ServerDeals.DealCreatePayload` | server.js:122-130 | the properties pass unchanged; one edge of type (HUBSPOT_DEFINED, 3) to the contact exactly when `contactId` is truthy, none otherwise |
| `ServerDeals.AssociatedContacts` | server.js:124-125 | the contacts of a body, one per edge, in order |
| `ServerDeals.AssociatedContactsOfPayload` | server.js:124-130 | the associated contacts read back are `[contactId]` when it is truthy and `[]` otherwise |
| `ServerDeals.CreateDealReply` | server.js:140-146 | the deal-create reply is the upstream body with 200, or the normalised error |
| `ServerDeals.IdInput` | server.js:268 | each batch input is `{id}`: exactly the key `id`, holding the deal id |
| `ServerDeals.PlanContactDeals` | server.js:262-282 | the plan after the association lookup: throw, reply at once, or one batch read; `EmptyAssociationsShortCircuit`, `MalformedAssociationsThrow`, `NullAssociationThrows` and `NonEmptyAssociationsBatchRead` state each case |
| `ServerDeals.EmptyAssociationsShortCircuit` | server.js:262-282 | a missing, null or empty association list plans no batch read |
| `ServerDeals.MalformedAssociationsThrow` | server.js:262-263 | a null lookup body, or non-array `results` that pass the length test, throw inside the handler |
| `ServerDeals.NullAssociationThrows` | server.js:263 | a null entry in a non-empty association list throws at `r.id` |
| `ServerDeals.NonEmptyAssociationsBatchRead` | server.js:262-270 | a non-empty list of association records plans one batch read: one input `{id}` per record, in order, holding the record's id, and the fixed deal projection |
| `ServerDeals.ContactDealsHandler` | server.js:246-290 | all four outcomes with the calls made: a failed lookup or a throw gives this endpoint's normalised error after the lookup alone; no associations give 200 `{results: []}` after the lookup alone; associations give the lookup, then the planned batch read, and the batch read's body or error |
| `ServerDeals.ContactDealsCalls` | server.js:251-279 | the lookup is always the first call, at most a batch read follows, the calls do not depend on the batch read's answer, and with one call the reply does not either |
| `ServerDeals.ContactDealsEmptyReply` | server.js:280-282 | with no associations the lookup is the only call and the reply is 200 `{results: []}` |
| `ServerDeals.ContactDealsBatchReply` | server.js:262-279 | with associations the second call is the batch read of one `{id}` per record, in order, with the deal projection; the reply is its body with 200, or its normalised error |
| `ServerDeals.BatchProjectionMatchesDealList` | server.js:269 | the batch read asks for the same five properties as the deal list |
| `ServerInsights.Prompt` | server.js:167-191 | the template: introduction, customer block, deal block, instructions; `PromptDealSection` states that it cuts back into them |
| `ServerInsights.CustomerSection` | server.js:169-173 | the customer block with the five fields spelled out; `PromptDefaultsContactFields` states the defaults |
| `ServerInsights.DealSection` | server.js:175-178 | the subscription block for a truthy `dealData`, else the free-trial line; `PromptHasSubscriptionIff` and `PromptIgnoresFalsyDeal` state it |
| `ServerInsights.PromptDealSection` | server.js:167-191 | the prompt is the fixed introduction, the customer block, the deal block and the fixed instructions, and cuts back into them |
| `ServerInsights.PromptHasSubscriptionIff` | server.js:175-178 | the prompt carries the "Subscription Information:" block exactly when `dealData` is truthy |
| `ServerInsights.PromptIgnoresFalsyDeal` | server.js:175-178 | the prompt does not depend on which falsy `dealData` was sent |
| `ServerInsights.PromptDefaultsContactFields` | server.js:172-173 | a falsy phone reads exactly like the text "Not provided", and so does a falsy address, each on its own |
| `ServerInsights.PlanInsights` | server.js:155-211 | without a key the answer is 400 "AI feature not configured"; with a key a nullish `contactData` throws; otherwise the request carries the key, the prompt, the model name, 300 tokens and API version 2023-06-01 |
| `ServerInsights.NotConfiguredIgnoresRequest` | server.js:158-164 | the key guard comes first: without a key every request body gets the same 400 |
| `ServerInsights.ClassifyAiError` | server.js:225-234 | the three error types are recognised exactly, and everything else, a non-string type included, is "other" |
| `ServerInsights.AiUserMessage` | server.js:226-234 | the user message of each error kind; `AiUserMessageRoundTrip` states that the kind can be read back from it |
| `ServerInsights.AiUserMessageRoundTrip` | server.js:226-234 | the four user messages are distinct: the error kind can be read back from the message |
| `ServerInsights.AiErrorDetails` | server.js:238 | the upstream error message when it is truthy, else the error's own message |
| `ServerInsights.AiErrorReply` | server.js:236-239 | the status of the shared policy, and a body of exactly `error`, the error kind's message, and `details`, the AI details |
| `ServerInsights.OverloadedReply` | server.js:228-239 | an upstream `overloaded_error` gives the upstream status, the high-traffic message and the upstream message |
| `ServerInsights.ExtractInsight` | server.js:214 | the read throws exactly when the body, its `content` or `content[0]` is `null`/`undefined`; for a well-formed response body the insight is `content[0].text` |
| `ServerInsights.InsightOfIndexedObject` | server.js:214 | a `content` object with a property "0" gives the text of that property |
| `ServerInsights.InsightsReply` | server.js:214-239 | not configured gives its 400; a failed call gives the AI error reply; a throw gives the AI error reply of a failure without a response; a success gives 200 with a body of exactly the insight and the timestamp |
| `ServerInsights.InternalErrorReply` | server.js:226-239 | an error raised inside the handler gives 500, the default message and its own message |
| `PanelForms.FormGet` | public/app.js:233-237 | a form field reads as its text, or as null when the form has no such field |
| `PanelForms.PropertyBag.Delete` | public/app.js:243 | `delete` removes that key and nothing else |
| `PanelForms.Cleaned` | public/app.js:241-245 | the cleaned object keeps exactly the entries whose value is neither `undefined` nor `''`, with their values |
| `PanelForms.RemoveEmptyValues` | public/app.js:241-245 | the in-place cleanup loop leaves exactly the cleaned object |
| `PanelForms.ContactFormEntries` | public/app.js:232-238 | the built object has exactly the five contact keys |
| `PanelForms.CollectContactProperties` | public/app.js:231-245 | the object sent is the cleaned form object |
| `PanelForms.ContactPropertiesKeys` | public/app.js:232-245 | the cleaned object has no key beyond the five |
| `PanelForms.RequiredFieldCleaned` | public/app.js:233-245 | a required field is dropped exactly when submitted empty, and otherwise keeps the value read (null for a missing field) |
| `PanelForms.OptionalFieldCleaned` | public/app.js:236-245 | phone and address stay exactly when submitted non-empty, with the submitted text |
| `PanelForms.DealFormProperties` | public/app.js:372-377 | the deal properties have exactly name, amount and stage; name and amount as typed, stage "closedwon" |
| `PanelForms.DealFormContactId` | public/app.js:380 | the contact id is the text of the form's `deal-contact-id` field, or null when the form has none |
| `PanelForms.DealFormToPayload` | public/app.js:372-380 | end to end with the proxy's deal body: the deal is won and keeps name and amount; it gets an edge exactly when a non-empty contact is selected, and that edge points at the selected id |
| `PanelRender.Prop` | public/app.js:156 | `(properties \|\| {}).name` is the property when there is one, else `undefined` |
| `PanelRender.Display` | public/app.js:157-161 | a truthy field shows as its string form, a falsy one as the fallback |
| `PanelRender.DisplayOfString` | public/app.js:157-161 | a non-empty string shows as itself; nullish or empty shows the fallback |
| `PanelRender.RenderContact` | public/app.js:149-175 | one row: the id, the five fields with "" for a missing one, and the button's "first last"; `ContactOfStrings` and `ContactWithoutProperties` state it |
| `PanelRender.RenderDeal` | public/app.js:523-537 | one entry: name, amount and stage with their defaults; `DealDefaults` and `WonDealStage` state it |
| `PanelRender.RenderContactsTable` | public/app.js:142-178 | "No contacts found" exactly for no contacts; otherwise one row per contact, in order |
| `PanelRender.ContactOfStrings` | public/app.js:156-171 | a contact with five non-empty string fields shows them as they are, and its button carries "first last" |
| `PanelRender.ContactWithoutProperties` | public/app.js:156-171 | a contact without properties shows empty cells and the button name " " |
| `PanelRender.RenderDealsList` | public/app.js:487-541 | "No subscriptions found" exactly for no deals; otherwise one entry per deal, in order |
| `PanelRender.DealDefaults` | public/app.js:528-531 | a deal without properties shows "Unnamed Deal", "0" and "Unknown"; non-empty string fields show as they are |
| `PanelRender.WonDealStage` | public/app.js:528-531 | a deal made by the deal form lists with stage "closedwon" |
| `PanelDropdown.Select.Remove` | public/app.js:329 | `remove(i)` drops the option at `i`, and does nothing out of range |
| `PanelDropdown.Select.AppendChild` | public/app.js:347 | `appendChild` adds the option at the end |
| `PanelDropdown.OptionText` | public/app.js:341-345 | the option text "first last (email)", each field defaulting to ""; `OptionTextOfContact` and `OptionTextWithoutProperties` state it |
| `PanelDropdown.ContactOption` | public/app.js:335-345 | the option of a contact: its id as value, `OptionText` as text |
| `PanelDropdown.Populated` | public/app.js:326-348 | the placeholder part followed by the contacts' options; `PopulatedShape` and `PopulatedIdempotent` state it |
| `PanelDropdown.ContactOptions` | public/app.js:333-348 | one option per contact, in order |
| `PanelDropdown.Placeholder` | public/app.js:326-330 | the placeholder part is the first option, and exists exactly when the list is non-empty |
| `PanelDropdown.PopulateContactDropdown` | public/app.js:323-349 | the in-place remove and append loops leave the placeholder followed by the contacts' options |
| `PanelDropdown.PopulatedShape` | public/app.js:326-348 | the placeholder is kept, there is one more option than contacts, and option `i + 1` has contact `i`'s id as value and its name text |
| `PanelDropdown.PopulatedIdempotent` | public/app.js:326-330 | filling twice with the same contacts equals filling once: nothing builds up behind the placeholder |
| `PanelDropdown.OptionTextOfContact` | public/app.js:341-345 | a contact with name and e-mail is offered as "first last (email)" |
| `PanelDropdown.OptionTextWithoutProperties` | public/app.js:341-345 | a contact without properties is offered as "  ()" |
| `InsightFormat.FormatAIInsight` | public/app.js:588-606 | the heading pass, then the bold pass, then the paragraph pass over the "\n\n" chunks; `PlainInsight`, `PlainParagraph`, `HeadingInsight` and `BoldInsight` state its result for whole texts |
| `InsightFormat.Headings` | public/app.js:590 | the heading pass applied to each "\n"-separated line, joined back with "\n"; `HeadingsWithoutMarkers` states it |
| `InsightFormat.HeadingLine` | public/app.js:590 | from the first "##" to the end of the line, the match becomes the `<h4>` of its capture; `HeadingLineWithoutMarker`, `FirstMarker` and `HeadingLineMarked` state it |
| `InsightFormat.HeadingCapture` | public/app.js:590 | the capture is no longer than the rest of the line |
| `InsightFormat.HeadingLineWithoutMarker` | public/app.js:590 | a line without "##" is left alone |
| `InsightFormat.FirstMarker` | public/app.js:590 | the heading match starts at the first "##" |
| `InsightFormat.CaptureOfTitle` | public/app.js:590 | `\s*` takes the leading whitespace and the lazy capture leaves out one trailing "**" |
| `InsightFormat.HeadingLineMarked` | public/app.js:590 | `pre ## title` (with an optional final "**") becomes `pre <h4>title</h4>` |
| `InsightFormat.HeadingsWithoutMarkers` | public/app.js:590 | a text without '#' passes the heading pass unchanged |
| `InsightFormat.CloseFrom` | public/app.js:593 | a closing "**" found is at or after the search start |
| `InsightFormat.Bold` | public/app.js:593 | the bold pass, left to right: at "**" with a closing "**" later on the line the shortest span becomes a `<strong>`; `BoldWithoutStars`, `BoldSpan`, `BoldInnerStar` and `BoldUnclosed` state it |
| `InsightFormat.CloseFromFinds` | public/app.js:593 | the lazy search stops at the first closing "**" when no line break comes before it; single '*' on the way do not stop it |
| `InsightFormat.CloseFromMisses` | public/app.js:593 | the search finds nothing when no "**" follows |
| `InsightFormat.BoldWithoutStars` | public/app.js:593 | a text without '*' passes the bold pass unchanged |
| `InsightFormat.BoldSkipsPlain` | public/app.js:593 | text without '*' before a match is kept as it is |
| `InsightFormat.BoldSpanAtStart` | public/app.js:593 | `**x**` at the start becomes `<strong>x</strong>` and the pass goes on after it, for every one-line `x` in which no "**" starts after its first character (with the closing "**" counted), single '*' included |
| `InsightFormat.BoldSpan` | public/app.js:593 | `pre **x** post`, with no '*' in `pre`, becomes `pre <strong>x</strong>` and then the bold pass over `post`, for the same `x` |
| `InsightFormat.BoldInnerStar` | public/app.js:593 | `**a*b**` becomes `<strong>a*b</strong>`: a single '*' stays inside the span |
| `InsightFormat.BoldUnclosed` | public/app.js:593 | an opening "**" with no closing one after it is kept as it is |
| `InsightFormat.KeepNonBlank` | public/app.js:596 | `filter(p => p.trim())`, keeping order; `KeepNonBlankMembers` and `KeepNonBlankAppend` state it |
| `InsightFormat.RenderChunk` | public/app.js:597-602 | the `map` callback; `FormatChunk` states it |
| `InsightFormat.FormatChunks` | public/app.js:596-603 | filter, map and `join('')` over the chunks; `FormatChunk`, `FormatChunksAppend` and `BlankChunkVanishes` state it |
| `InsightFormat.KeepNonBlankMembers` | public/app.js:596 | the filter keeps exactly the chunks that are not all whitespace |
| `InsightFormat.RenderAll` | public/app.js:597-603 | one rendered chunk per kept chunk, in order |
| `InsightFormat.KeepNonBlankAppend` | public/app.js:596 | the filter distributes over concatenation |
| `InsightFormat.FormatChunksAppend` | public/app.js:596-603 | the paragraph pass emits the chunks in their order |
| `InsightFormat.FormatChunk` | public/app.js:596-603 | a whitespace chunk vanishes; a chunk starting with `<h4` is emitted as it is; any other is trimmed and wrapped in `<p>` |
| `InsightFormat.BlankChunkVanishes` | public/app.js:596 | a whitespace chunk anywhere does not change the output |
| `InsightFormat.PlainInsight` | public/app.js:588-606 | text without '#' or '*' is just the paragraph pass over its chunks |
| `InsightFormat.PlainParagraph` | public/app.js:588-606 | one plain line becomes one `<p>` holding its trim |
| `InsightFormat.HeadingInsight` | public/app.js:588-606 | `## title` becomes just the `<h4>` of its title, not wrapped in `<p>` |
| `InsightFormat.BoldInsight` | public/app.js:588-606 | a line `**x**`, with `x` as in `BoldSpanAtStart` and without '#', becomes a `<p>` holding `<strong>x</strong>` |

## Left out

- Network I/O: the CRM and language-model services, URLs, headers and tokens are not modelled. Each upstream answer is an input (`Outcome`).
- Express itself is not modelled: routing, JSON body parsing, static files, CORS, the health route (server.js:29-34), the listener and process shutdown (server.js:292 onwards). Console logging is left out too.
- The startup check that exits when the CRM token is missing (server.js:22-26) is process lifecycle and is left out.
- `req.body` missing altogether is not modelled. Each handler takes the fields it destructures.
- The clock is a parameter of `InsightsReply`, not read: `new Date().toISOString()`.
- `process.env.ANTHROPIC_API_KEY` is a parameter, and so is the message of a TypeError raised inside a handler.
- JSON serialisation is not modelled; for example, a `undefined` insight is dropped from the reply. Replies are `Value` trees.
- Numbers are integers: floating point, `NaN` and the string forms of non-integers are not modelled.
- `ServerDeals.PlanContactDeals`: only arrays, strings and objects with a numeric `length` are read as having a length. Other exotic `results` values are treated as having no length.
- `InsightFormat.HeadingLine` and `InsightFormat.HeadingCapture` read a line as the regular expression does only when the line satisfies `HeadingLineWellFormed`. On a line such as "## " the expression backtracks `\s*`, captures " " and gives `<h4> </h4>`, where `HeadingLine` gives `<h4></h4>`.
- `InsightFormat.FormatAIInsight` requires `HeadingsWellFormed(text)`. Outside it, `\s*` would backtrack or run over a line break, or a line would have a heading marker not followed by text; that regular-expression behaviour is not modelled.
- `InsightFormat.FormatAIInsight`: `HeadingsWellFormed` also asks that "\n" be the only line terminator, so a text holding "\r" (CRLF line ends, say), U+2028 or U+2029 is outside the model.
- `PanelRender.Record` cannot be `null`. A `null` contact or deal in the list makes the source throw a TypeError at `contact.id` (public/app.js:153), at `contact.id` (public/app.js:338, in `populateContactDropdown`) or at `deal.properties` (public/app.js:528); that throw is not modelled.
- The DOM is not modelled: element lookup, `innerHTML` markup, CSS classes, event wiring, modals, loading indicators and `escapeHtml`. The renderers model the text each cell, entry or option gets.
- `PanelForms.RemoveEmptyValues` visits keys in no fixed order, while `Object.keys` has one. The result is the same for every order, and the contract states it for all of them.
- Form validation (`checkValidity`) is not modelled. A form is the map of its submitted fields.
- The panel's fetch-and-show flows (loading contacts, submitting the two forms, opening the deals modal, requesting and showing insights) are not modelled beyond the pieces above. They are DOM updates around a `fetch`.
- The placeholder option's text and value come from `public/index.html`, which is not part of this model. The placeholder is just "the first option".
- `PanelRender.Display` and `PanelDropdown.OptionText` keep `String(v)` of a truthy non-string field. Objects show as "[object Object]" and arrays as their comma-joined elements; no other conversion is modelled.
