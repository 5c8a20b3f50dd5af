# webdriverlib client core, modelled in Dafny

This project models the protocol client at the heart of the PHP WebDriver
library `webdriverlib`. It covers five parts:

- the transport (`WebDriver_Driver`): session ownership, reply classification and the status table;
- the element handle (`WebDriver_Element`): lazy id resolution, locator parsing, tag-dependent
  `value`/`clear`, mouse gestures and the `waitDisplayed` poll;
- the cookie, window and alert facades;
- the configuration map.

The remote server is an uninterpreted function from the commands sent so far and the next command to
its reply (`Command.Server`). Every operation takes the command log and returns the extended log, so
each contract can say exactly which requests an operation sends, in which order, and what it does
with the replies. The element's lazily filled state is an immutable record: its id, its cached tag
name and the last button pressed. Each operation returns that record in the state PHP leaves it in,
also when an exception is thrown.

PHP's loose values are a `Values.Value` datatype. Its helpers follow the language:

- truthiness (`""`, `"0"`, `0`, `null`, `false` and the empty array are false);
- `isset` on nested arrays;
- `(int)`/`intval` on strings (leading blanks, a sign, then digits);
- string interpolation;
- `strtolower`.

Modules, one file each:

- `wrappers.dfy`: `Option` and `Result`.
- `values.dfy`: PHP values and conversions.
- `command.dfy`: commands and the server oracle.
- `errors.dfy`: the exceptions.
- `driver.dfy`: the transport.
- `locator.dfy`: locator parsing.
- `element.dfy`: resolution and the simple element queries.
- `element_value.dfy`: tag name, `value` and `clear`.
- `gestures.dfy`: `moveto`, buttons and drag-and-drop.
- `polling.dfy`: `waitDisplayed`.
- `cookie.dfy`, `window.dfy`, `alert.dfy`, `config.dfy`: the facades and the configuration.

## Model

| member | source | states |
|---|---|---|
| Values.Lower | WebDriver/WebDriver/Element.php:270 | `strtolower` keeps the length and maps every character through the ASCII lower-casing |
| Values.LowerIdempotent | WebDriver/WebDriver/Element.php:268-272 | lower-casing a cached tag name again changes nothing |
| Values.IntToStringRoundTrip | WebDriver/WebDriver/Element.php:51-59 | an id written in decimal (`sprintf('%d')`, `"{$id}"`) reads back through PHP's `(int)` cast as the same integer |
| Driver.StatusMessage | WebDriver/WebDriver/Driver.php:123-153 | a listed status yields its table description; any other status yields `Unknown error status: ` followed by text that reads back as that status |
| Driver.CheckResponse | WebDriver/WebDriver/Driver.php:119-156 | throws exactly when the status is non-zero, and the exception's code is that status |
| Driver.StatusTableDomain | WebDriver/WebDriver/Driver.php:123-149 | the table has an entry for exactly the statuses 6-13, 15, 17, 19, 21 and 23-34 |
| Driver.LookupRoundTrip | WebDriver/WebDriver/Driver.php:123-149 | every table entry is found under its own status, and an entry found under a status carries that status |
| Driver.UnknownStatusFails | WebDriver/WebDriver/Driver.php:151-154 | an unlisted non-zero status (1-5, 14, 16, 18, 20, 22) still fails, with the `Unknown error status` message |
| Driver.Curl | WebDriver/WebDriver/Driver.php:85-116 | checks in the PHP code's order: a curl error or HTTP 0 is a no-Selenium exception; 404 is "not recognized"; 500 is a server failure; otherwise the status is checked only when the body has a `status` key; the body is returned exactly when every check passes |
| Driver.ServerMessageOf | WebDriver/WebDriver/Driver.php:102-109 | an HTTP 500 failure reports `value.message` exactly when it is set, as its string form; otherwise the message is built from the command and the whole body |
| Driver.Send | WebDriver/WebDriver/Driver.php:60-116 | one round trip appends exactly the command to the log; it succeeds exactly when the reply got past the transport checks and its status is accepted, and then the result is the reply's body |
| Driver.SendForValue | WebDriver/WebDriver/Object/Alert.php:11 | `curl(...)['value']`: one command appended; succeeds under the same condition as `curl`, with the body's `value` field; a failure is `curl`'s own error |
| Driver.SendForEffect | WebDriver/WebDriver/Object/Cookie.php:55 | a command whose reply is dropped: one command appended; succeeds under the same condition as `curl`; a failure is `curl`'s own error |
| Driver.TransferOf | WebDriver/WebDriver/Driver.php:74-83 | only a POST with a non-empty parameter array carries a JSON body, which is those parameters; a DELETE uses the custom method; a GET is plain |
| Driver.ServerErrorIgnoresStatus | WebDriver/WebDriver/Driver.php:102-109 | on HTTP 500 with `value.message` set, the exception carries that message whatever the status field says |
| Driver.NoStatusKeyPassesThrough | WebDriver/WebDriver/Driver.php:110-115 | a delivered body without a `status` key is returned unchecked |
| Driver.Open | WebDriver/WebDriver/Driver.php:18-37 | a truthy session id is adopted without a request and not owned; otherwise exactly one `session` POST is sent and the reply's `sessionId` is owned |
| Driver.Close | WebDriver/WebDriver/Driver.php:40-49 | only an owned session with a truthy id is deleted, by one DELETE sent without the session prefix |
| Driver.SessionLifecycle | WebDriver/WebDriver/Driver.php:18-49 | over a client's life, an adopted session sees no session requests; an owned one sees one creation and then its deletion |
| Locators.SplitAtFirstEquals | WebDriver/WebDriver/Element.php:77-78 | `explode('=', $locator, 2)` has two parts exactly when the locator holds `=`; the first part holds no `=` and the parts joined by `=` give back the locator |
| Locators.ParseAsWritten | WebDriver/WebDriver/Element.php:65-88 | the PHP code's parser: no `=` is a format error, a prefix outside the strategy table is an unknown-strategy error, and otherwise `using` is the short prefix itself |
| Locators.Parse | WebDriver/WebDriver/Element.php:65-88 | the corrected parser fails exactly when the PHP code's does, with the same error, and otherwise sends the protocol's name for the strategy |
| Locators.ParseAsWrittenRoundTrip | WebDriver/WebDriver/Element.php:77-87 | any accepted strategy, `=`, and any search text (further `=` included) splits back into those two parts |
| Locators.ParseRoundTrip | WebDriver/WebDriver/Element.php:67-87 | the corrected parser maps `strategy=search` to the table's protocol name and the search text unchanged |
| Locators.AsWrittenSendsShortName | WebDriver/WebDriver/Element.php:67-87 | the PHP code's parser sends `css` for `css=.menu`, which is not a protocol strategy name |
| Locators.ParsersAgreeOnSharedNames | WebDriver/WebDriver/Element.php:67-87 | the PHP code's parser and the corrected one agree exactly on rejected locators and on the strategies `id`, `name` and `xpath`, whose short name is the protocol's name |
| Elements.New | WebDriver/WebDriver/Element.php:29-36 | a new element keeps its locator and parent id, and starts unresolved, with no cached tag and no button pressed |
| Elements.Resolve | WebDriver/WebDriver/Element.php:45-62 | a known id is reused with no request; a locator the parser rejects fails with the parser's error before anything is sent; otherwise one find is sent (under the parent when there is one) carrying the parsed locator, and the element resolves exactly when the reply has `value.ELEMENT`, whose id it then keeps |
| Elements.SendCommand | WebDriver/WebDriver/Element.php:91-96 | an element command is sent after resolution, bound to the element's id; on success the result is the reply to that command; for a resolved element it succeeds exactly when `curl` accepts the reply, and fails with `curl`'s error otherwise |
| Elements.SendForValue | WebDriver/WebDriver/Element.php:182-186 | the result is the `value` field of the reply to the element command, the last command sent; for a resolved element a failure is exactly `curl`'s |
| Elements.SendForEffect | WebDriver/WebDriver/Element.php:101-105 | the reply's value is dropped and its failure is not: for a resolved element the call succeeds exactly when `curl` accepts the reply, and otherwise fails with `curl`'s error |
| Elements.Click | WebDriver/WebDriver/Element.php:101-105 | a resolved element sends exactly one `click` POST |
| Elements.Submit | WebDriver/WebDriver/Element.php:176-179 | a resolved element sends exactly one `submit` POST |
| Elements.Text | WebDriver/WebDriver/Element.php:182-186 | a resolved element sends exactly one `text` GET; on success the text is the `value` field of the reply to that GET |
| Elements.Attribute | WebDriver/WebDriver/Element.php:282-286 | the request path is `attribute/` followed by the attribute name; on success the result is the `value` field of the reply to that request |
| Elements.Enabled | WebDriver/WebDriver/Element.php:295-299 | the answer is the PHP truthiness of the reply's value |
| Elements.IsDisplayed | WebDriver/WebDriver/Element.php:336-340 | the answer is true exactly when the reply to the `displayed` query, the last command sent, has a truthy value |
| Elements.Size | WebDriver/WebDriver/Element.php:302-311 | width and height are read from the reply's value, with nothing cached |
| Elements.Location | WebDriver/WebDriver/Element.php:317-322 | x and y are read from the reply's value |
| Elements.Child | WebDriver/WebDriver/Element.php:289-292 | the parent is resolved (and nothing else is sent), and the child is a fresh element under the parent's id |
| Elements.IsPresent | WebDriver/WebDriver/Element.php:325-333 | never fails; the answer is true exactly when resolution succeeds, and the element keeps the id it found |
| Elements.WaitPresent | WebDriver/WebDriver/Element.php:343-352 | succeeds exactly when resolution succeeds, and passes on resolution's error otherwise |
| Elements.NoSecondFind | WebDriver/WebDriver/Element.php:45-62 | once resolved, the next element command sends only itself, with the same id |
| Elements.MalformedLocatorSendsNothing | WebDriver/WebDriver/Element.php:47-48 | a malformed locator fails every element command with the parse error, sends nothing, and makes `isPresent` false |
| Elements.ChildFindsUnderParent | WebDriver/WebDriver/Element.php:50-52 | a child's find is addressed to `element/<parentId>/element` |
| ElementValues.TagName | WebDriver/WebDriver/Element.php:266-273 | a truthy cached tag is returned with no request; otherwise one `name` GET is sent, and on success the result is that reply's value, string-cast and lower-cased, and it is cached |
| ElementValues.TagNameCachedOnce | WebDriver/WebDriver/Element.php:266-273 | after a fetch of a non-empty name, asking again sends nothing and gives the same name |
| ElementValues.ClickChild | WebDriver/WebDriver/Element.php:206-207 | the option is found under the element's id, then the found id is clicked |
| ElementValues.ValueOp | WebDriver/WebDriver/Element.php:195-236 | a write returns the element and a read returns a value |
| ElementValues.ReadSelected | WebDriver/WebDriver/Element.php:218-230 | a select's own locator is sent as an element command; then the `value` attribute of the option id in the reply is read |
| ElementValues.Clear | WebDriver/WebDriver/Element.php:244-258 | the element's state only evolves, and the log only grows |
| ElementValues.OptionWithValueParses | WebDriver/WebDriver/Element.php:206 | the option locator built from a value parses as XPath, with the value embedded |
| ElementValues.FirstOptionParses | WebDriver/WebDriver/Element.php:253 | the first-option locator parses as XPath |
| ElementValues.WriteDispatch | WebDriver/WebDriver/Element.php:197-210 | writing to an input or textarea sends one `value` POST carrying the value's string form; to a select it finds the option with that value; to any other tag it sends nothing |
| ElementValues.ReadDispatch | WebDriver/WebDriver/Element.php:211-235 | reading an input or textarea reads its `value` attribute; any other non-select tag reads its text; a select starts with an element command; a successful read yields a value |
| ElementValues.ClearDispatch | WebDriver/WebDriver/Element.php:244-258 | clearing an input or textarea sends one `clear` POST; a select has its first option found; any other tag is left alone |
| Gestures.MoveParams | WebDriver/WebDriver/Element.php:115-122 | the target id is a decimal string that reads back as the id; the offsets are present, as integers, exactly when an x offset is given, and a missing y offset becomes 0 |
| Gestures.MoveTo | WebDriver/WebDriver/Element.php:113-125 | the element and the target only gain ids; on success both are resolved; for resolved elements exactly one `moveto` is sent, as this element's command, naming the target's id (its own id when no target is given), with the parameters `MoveParams` builds |
| Gestures.MoveToResolvesFirst | WebDriver/WebDriver/Element.php:115-123 | the target (this element when none is given) is resolved before anything else; a failed resolution ends the call with its error and nothing more sent; a successful call ends with this element's `moveto` naming the resolved id |
| Gestures.ButtonDown | WebDriver/WebDriver/Element.php:132-139 | the pressed button is remembered only when every step succeeded; a failure leaves the remembered button as it was |
| Gestures.ReleasedButton | WebDriver/WebDriver/Element.php:148 | the released button is the named one or the remembered one: the named one when PHP reads it as true, the remembered one for `null` and for `BUTTON_LEFT` (0) |
| Gestures.ButtonUp | WebDriver/WebDriver/Element.php:146-152 | sends one `buttonup` carrying the given button when it is truthy and the remembered one otherwise; the remembered button is cleared only on success |
| Gestures.CeilHalf | WebDriver/WebDriver/Element.php:166 | the result is the least integer at least half the width (`ceil($w / 2)`), negative widths included |
| Gestures.PressMoveRelease | WebDriver/WebDriver/Element.php:165-167 | the press, move and release chain keeps the element's locator, parent and id; on success no button is remembered and both elements are resolved |
| Gestures.PressMoveReleaseStops | WebDriver/WebDriver/Element.php:165-167 | the first failure stops the chain: a failed press ends it with the press's error and log; a failed move after a successful press leaves the left button remembered and sends no `buttonup` |
| Gestures.DragAndDrop | WebDriver/WebDriver/Element.php:161-169 | a successful drag leaves no button remembered and both the dragged element and the target resolved |
| Gestures.PressThenRelease | WebDriver/WebDriver/Element.php:132-152 | after a successful press, a release without a button releases the pressed one and then clears it |
| Gestures.LeftButtonByNameIsIgnored | WebDriver/WebDriver/Element.php:146-152 | releasing `BUTTON_LEFT` (0) by name behaves as releasing with no button, so a remembered right button is released instead |
| Gestures.PressOnResolved | WebDriver/WebDriver/Element.php:132-139 | a press on a resolved element sends exactly `size`, a bare `moveto` onto itself, then `buttondown` |
| Gestures.PressMoveReleaseOnSelf | WebDriver/WebDriver/Element.php:165-167 | without a target, the chain sends exactly the press steps, a `moveto` onto itself with the offsets, and `buttonup 0` |
| Gestures.PressMoveReleaseOnto | WebDriver/WebDriver/Element.php:165-167 | with a target, the final `moveto` names the target and is still sent as the dragged element's command |
| Gestures.DragOnSelf | WebDriver/WebDriver/Element.php:161-169 | dragging a resolved element sends its size twice, a bare `moveto`, `buttondown 0`, a `moveto` by the offset plus half its size rounded up, and `buttonup 0` |
| Gestures.DragOntoTarget | WebDriver/WebDriver/Element.php:161-169 | dragging onto a resolved target measures the target first, and the drop offset is half the target's size rounded up |
| Polling.OneQuery | WebDriver/WebDriver/Element.php:336-340 | one `isDisplayed` sends at most one `displayed` query (exactly one when it succeeds) and never fails with the timeout error |
| Polling.Poll | WebDriver/WebDriver/Element.php:357-363 | the poll sends at most one query per round; a truthy first answer ends it at once with that answer's outcome; it ends with the timeout error only when every round was asked and answered; it succeeds only on a truthy answer to the last command sent |
| Polling.WaitDisplayed | WebDriver/WebDriver/Element.php:355-364 | at most 30 `displayed` queries are sent, and exactly 30 before the timeout error; a truthy first answer ends the wait at once, with that query's outcome |
| Polling.WaitDisplayedLoop | WebDriver/WebDriver/Element.php:355-364 | the counted loop as written computes the same outcome, element state and log as the recursive poll |
| Polling.HiddenRound | WebDriver/WebDriver/Element.php:358-361 | a falsy answer moves to the next round with the query appended |
| Polling.HiddenExhaustsRounds | WebDriver/WebDriver/Element.php:357-363 | against a server that always answers falsy, `n` rounds send exactly `n` identical queries and end with the timeout error |
| Polling.HiddenTimesOut | WebDriver/WebDriver/Element.php:355-364 | a never-displayed element ends with the timeout error after exactly 30 queries, instead of looping for ever |
| Polling.ShownRound | WebDriver/WebDriver/Element.php:358-360 | a truthy answer ends the poll with success and the query appended |
| Polling.ShownAfterRounds | WebDriver/WebDriver/Element.php:357-363 | when the first `k` answers are falsy and the next is truthy, and more than `k` rounds are left, the poll succeeds right after that answer with exactly `k + 1` queries |
| Polling.ShownInRound | WebDriver/WebDriver/Element.php:355-364 | `waitDisplayed` returns on the first truthy answer among its 30 rounds, after exactly that many queries |
| Cookies.Get | WebDriver/WebDriver/Object/Cookie.php:8-22 | one `cookie` GET; with a falsy name the whole value is returned, with a truthy name the first cookie of that name (or null) |
| Cookies.Set | WebDriver/WebDriver/Object/Cookie.php:33-44 | one `cookie` POST whose cookie is the name, the value's string form and `secure` false |
| Cookies.Delete | WebDriver/WebDriver/Object/Cookie.php:52-56 | one DELETE of `cookie/<name>` |
| Cookies.ClearAll | WebDriver/WebDriver/Object/Cookie.php:62-66 | one DELETE of `cookie` |
| Cookies.FirstNamedIsFirstMatch | WebDriver/WebDriver/Object/Cookie.php:13-19 | the filtered search finds nothing exactly when no item has the name, and otherwise returns the earliest item that has it |
| Cookies.FalsyNameReadsAll | WebDriver/WebDriver/Object/Cookie.php:12 | the names `""` and `"0"` read all cookies, as no name does |
| Cookies.NamedReadPicksFirst | WebDriver/WebDriver/Object/Cookie.php:12-19 | a named read of a cookie list is null exactly when no cookie has the name, and otherwise the first that has it |
| Configuration.Fresh | WebDriver/WebDriver/Config.php:5-9 | a new configuration knows only `trim_text_node_value`, set to true |
| Configuration.Get | WebDriver/WebDriver/Config.php:12-18 | a parameter is returned exactly when it is set and not null; otherwise the unknown-parameter error names it |
| Configuration.Set | WebDriver/WebDriver/Config.php:21-24 | the key set grows by the name, which now maps to the value |
| Configuration.GetAfterSet | WebDriver/WebDriver/Config.php:12-24 | reading a parameter after setting it to a non-null value gives that value |
| Configuration.SetNullHidesKey | WebDriver/WebDriver/Config.php:14 | a parameter set to null reads as unknown |
| Configuration.SetLeavesOthers | WebDriver/WebDriver/Config.php:21-24 | setting one parameter does not change how any other reads |
| Configuration.FreshRejectsOthers | WebDriver/WebDriver/Config.php:7-18 | a new configuration rejects every name but `trim_text_node_value` |
| Alerts.Text | WebDriver/WebDriver/Object/Alert.php:8-12 | one `alert_text` GET whose reply value is the result |
| Alerts.Accept | WebDriver/WebDriver/Object/Alert.php:35-39 | one `accept_alert` POST whose reply value is the result |
| Alerts.Dismiss | WebDriver/WebDriver/Object/Alert.php:45-49 | one `dismiss_alert` POST whose reply value is the result |
| Alerts.Write | WebDriver/WebDriver/Object/Alert.php:20-29 | the text is posted first; the alert is accepted only when asked and the post succeeded; the result is the post's reply value |
| Alerts.WriteThenAccept | WebDriver/WebDriver/Object/Alert.php:20-29 | a successful write with accepting sends exactly the text post followed by the accept |
| Windows.Focus | WebDriver/WebDriver/Object/Window.php:14-23 | one `window` POST whose only parameter is the name |
| Windows.Close | WebDriver/WebDriver/Object/Window.php:30-37 | one `window` POST with no parameters |
| Windows.GetSize | WebDriver/WebDriver/Object/Window.php:56-64 | one GET on the handle's `size`; height and width are read from the reply's value |
| Windows.SetSize | WebDriver/WebDriver/Object/Window.php:74-86 | one POST on the handle's `size` with width and height cast to integers |
| Windows.Maximize | WebDriver/WebDriver/Object/Window.php:94-101 | one POST on the handle's `maximize` |
| Windows.GetPosition | WebDriver/WebDriver/Object/Window.php:109-118 | one GET on the handle's `position`; left and top are the reply's x and y |
| Windows.SetPosition | WebDriver/WebDriver/Object/Window.php:128-140 | one POST on the handle's `position` with x and y cast to integers |
| Windows.HandleRouting | WebDriver/WebDriver/Object/Window.php:45-64 | after the handle is set, every handle-scoped request goes under `window/<handle>/`; a new window uses `current` |
| Windows.SetWindowHandle | WebDriver/WebDriver/Object/Window.php:45-48 | every handle-scoped path built afterwards is `window/<handle>/<op>` with the new handle |

## Left out

- Floating-point values: PHP floats in replies or arguments are not in `Values.Value`, and `intval` is modelled on integers, booleans, null and digit strings.
- A non-integer `status` is compared through the same integer cast; PHP's loose `!= 0` on arbitrary strings is not modelled beyond that cast.
- The cookie name filter's loose `==` is modelled as the item's name being exactly the string form of the given name. Numeric-string comparison (`"1" == "01"`) and non-string names in replies are not modelled.
- URL rendering (session prefix, `:id` substitution) lives in `WebDriver_Command`, which is not part of this model. A command is kept as the record handed to it.
- Exception messages are tags carrying what the message is built from. The status messages are spelled out exactly, but the connection-error and synthesized HTTP 500 texts (`var_export`) are not.
- curl options (timeout, headers, follow-location) and JSON encoding and decoding are I/O. The reply is the server oracle's decoded body.
- `sleep(1)` between polls is not modelled. Time does not pass in the model; the server's history argument lets its answers change between rounds.
- The `WebDriver` facade, screenshots, frames, the `WebDriver_Object` base class and the timeout commands (`Object/Timeout.php`) are outside this core.
- Gestures.DragAndDrop: when the target is the dragged element itself, passed as a separate handle, the two copies do not share state as PHP objects would. The model keeps the target's updates on the returned target.
- Gestures.DragAndDrop: a non-numeric width or height is cast with `intval` before halving, where PHP would divide a numeric string as a float.
- Gestures.PressMoveRelease: states no prefix relation between input and output logs. The exact log of the resolved cases is in `PressMoveReleaseOnSelf` and `PressMoveReleaseOnto`.
- Gestures.DragAndDrop: states no prefix relation between input and output logs. The exact log of the resolved cases is in `DragOnSelf` and `DragOntoTarget`.
- ElementValues.ValueOp: its own contract only relates the result's shape to the argument. The per-tag behaviour is stated by `WriteDispatch` and `ReadDispatch`, for resolved elements with a cached tag.
- ElementValues.Clear: its own contract only states that state evolves and the log grows. The per-tag behaviour is in `ClearDispatch`.
- Elements.Resolve: the find request carries the locator as the corrected parser `Locators.Parse` gives it, with the protocol's strategy name. The PHP code sends the short prefix (`Element.php:48,54`); the two agree for `id`, `name` and `xpath` and differ for the other strategies (`Locators.ParsersAgreeOnSharedNames`, and see Findings).
- ElementValues.ReadSelected: the select's own locator is likewise sent as `Locators.Parse` gives it, where the PHP code sends the short prefix (`Element.php:222`).
- Cookies.Get: a reply whose `value` is a keyed array (a JSON object) gives null. PHP's `array_filter` would search its entries in insertion order, which a Dafny map does not keep.
- 64-bit integer bounds on ids and offsets are not modelled (integers are unbounded).
- Behaviour of this client that a reader might not expect, which the model keeps:
  - `waitDisplayed` polls a literal 30 times, not a configurable timeout.
  - Session teardown failures propagate from the destructor (nothing catches them).
  - `isPresent` only catches the failure; it restores no timeout state.
  - Status 7 is a plain status exception with code 7.
  - `Window::close` posts to `window` with no parameters.

## Findings

| source | as written | input that shows it | evidently intended | confidence | as-written member | corrected member |
|---|---|---|---|---|---|---|
| WebDriver/WebDriver/Element.php:65-88 | `parseLocator` builds the table from short strategy names to protocol names, checks the prefix against it, then returns the short prefix as `using` | `css=.menu` sends `using: "css"`, which the protocol does not define (it expects `css selector`) | `using` is the table's protocol name for the prefix | not executed | Locators.AsWrittenSendsShortName | Locators.ParseRoundTrip |
