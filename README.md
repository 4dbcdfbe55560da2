# Virtual advisory board, modelled in Dafny

The repository holds two variants of an MCP server. Each answers business questions through a "virtual advisory board" of six personas: Tim Cook, Warren Buffett, Maya Angelou, Jamie Dimon, Charlie Munger and Art Gensler. The tool bodies in both variants are pure string rendering over constant tables. This project models them.

- `text.dfy` (module `Text`) models the JavaScript string operations the tool bodies use:
  - `toLowerCase` and `toUpperCase`, restricted to ASCII;
  - `String.prototype.replace` with a one-character string pattern, which replaces the first occurrence only;
  - `Array.prototype.join`.
  It also proves where each joined part and each separator lies in the joined text. The predicates `IsInfix` (one text occurs inside another) and `EndsWith` model no call of the source: they only serve to state properties of the rendered texts.
- `table.dfy` (module `Table`) treats a JavaScript object literal as a list of `(key, value)` entries in declaration order. Property lookup is `Find`, and `Object.entries` is the list itself.
- `advisory_board.dfy` (module `AdvisoryBoard`) models `src/index.ts`:
  - the `ADVISORS` registry;
  - `generateResponse`, which derives the key from the display name by lower-casing and replacing the first space, picks the per-advisor template, and falls back to a generic paragraph through `||`;
  - the bodies of `hold_board_meeting`, `get_advisor_info` and `list_advisors`.
  The registry and the response table form one `Board` value that each operation takes. This way the operations' properties are proved for every board satisfying `Valid`, and `ShippedIsValid` proves that the board the server ships satisfies `Valid`. The meeting's render date comes from the clock, so it is a parameter here.
- `stdio_board.dfy` (module `StdioBoard`) models `index.ts`:
  - the `ADVISORS` table from key to advice text;
  - `hold_board_meeting`, with its `**LABEL**: advice` blocks. The label is the key with its first `_` replaced by a space, then upper-cased;
  - the constant roster of `list_advisors`.

The `advisors` argument of both meeting tools passes through `z.enum([...])` before the tool body runs. The model states this as a precondition: every requested key is a key of the table. The tables and the enums are proved to list the same keys, in the same order.

Three facts about the code shape the model:
- Keys are underscored (`tim_cook`).
- Lookup does no normalisation: `generateResponse` looks up `name.toLowerCase().replace(' ', '_')`.
- A derived key that is not declared gets the fallback paragraph; there is no error.

## Model

| member | source | states |
|---|---|---|
| Text.Lower | src/index.ts:89 | `toLowerCase` keeps the length and maps each position independently, only `A`-`Z` changing |
| Text.Upper | index.ts:36 | `toUpperCase` keeps the length and maps each position independently, only `a`-`z` changing |
| Text.LowerOfConcat | src/index.ts:89 | lower-casing a concatenation lower-cases each piece |
| Text.UpperOfConcat | index.ts:36 | upper-casing a concatenation upper-cases each piece |
| Text.FirstIndex | src/index.ts:89 | the first position of a character: -1 exactly when the character is absent, otherwise that character with none before it |
| Text.LowerKeepsFirstSpace | src/index.ts:89 | lower-casing does not move the first space, so `replace` after `toLowerCase` hits the name's own first space |
| Text.ReplaceFirst | src/index.ts:89 | `replace` with a one-character string pattern turns the first occurrence into the replacement and keeps every other position, later occurrences included; without an occurrence the text is returned unchanged |
| Text.Join | src/index.ts:123 | joining no parts gives the empty text, and joining one part gives that part |
| Text.JoinLength | src/index.ts:123 | the joined text is as long as the parts plus one separator per gap |
| Text.OffsetStep | src/index.ts:123 | part `i + 1` starts one part and one separator after part `i` |
| Text.JoinPartAt | src/index.ts:123 | every part occurs unchanged at its own offset of the joined text, in order |
| Text.JoinSeparatorAt | src/index.ts:123 | exactly the separator stands between two neighbouring parts |
| Table.Find | src/index.ts:116 | looking up a key finds nothing exactly when no entry declares it; otherwise it finds the value of an entry declaring it |
| Table.FindAt | src/index.ts:116 | with distinct keys, a lookup returns the value at the key's unique position |
| AdvisoryBoard.ResponseKey | src/index.ts:89 | no ensures of its own; its contract is `ResponseKeyShape` |
| AdvisoryBoard.ResponseKeyShape | src/index.ts:89 | the derived key is the lower-cased name with only its first space turned into `_`; later spaces stay |
| AdvisoryBoard.ResponseKeyOfTwoWords | src/index.ts:89 | a `First Last` name derives `first_last` |
| AdvisoryBoard.NamesDeriveKeys | src/index.ts:10-47 | every display name in `ADVISORS` derives the key it is declared under |
| AdvisoryBoard.NamesHaveDistinctInitials | src/index.ts:10-47 | no display name is empty, and no two start with the same letter |
| AdvisoryBoard.EnumHasNoDuplicates | src/index.ts:100 | the schema's enumeration lists each advisor once |
| AdvisoryBoard.SchemaMatchesRegistry | src/index.ts:100 | the enumeration is exactly the keys of `ADVISORS`, in order, so the lookup at line 116 never fails |
| AdvisoryBoard.SchemaMatchesResponses | src/index.ts:51-87 | the response templates are declared under the same keys, in the same order |
| AdvisoryBoard.FixedResponsesNonEmpty | src/index.ts:51-87 | no response template without interpolation is empty, so none is falsy |
| AdvisoryBoard.ShippedIsValid | src/index.ts:10-87 | the shipped registry and responses satisfy `Valid`: distinct keys, names deriving their keys, matching response keys, non-empty texts |
| AdvisoryBoard.ResponsesQuotingTopic | src/index.ts:52-86 | the tim_cook, maya_angelou and art_gensler templates interpolate the topic; the other three are fixed text |
| AdvisoryBoard.AdvisorOf | src/index.ts:116 | `ADVISORS[key]` is the record declared under that key |
| AdvisoryBoard.GenerateResponse | src/index.ts:50-91 | no ensures of its own; its contract is `GenerateResponseSelects`, with `RegisteredAdvisorGetsOwnTemplate`, `GenerateResponseIgnoresBackground` and `RenderTopicDependence` |
| AdvisoryBoard.GenerateResponseSelects | src/index.ts:89-90 | the response is the template under the derived key, rendered with the topic, when that key is declared; otherwise it is the fallback paragraph, which contains the quoted topic |
| AdvisoryBoard.RegisteredAdvisorGetsOwnTemplate | src/index.ts:89 | a registered advisor derives its own key and gets its own template, never the fallback |
| AdvisoryBoard.GenerateResponseIgnoresBackground | src/index.ts:50-90 | the response is the same for any two `background` values |
| AdvisoryBoard.RenderTopicDependence | src/index.ts:52-86 | a fixed template gives the same text for every topic; an interpolating one contains the topic in quotes and renders different topics differently |
| AdvisoryBoard.HoldBoardMeeting | src/index.ts:103-130 | no ensures of its own; its contract is `MeetingEchoesArguments`, `MeetingFrame`, `MeetingSectionAt` and `MeetingSeparatorAt` with `SectionOfAdvisor` |
| AdvisoryBoard.MeetingEchoesArguments | src/index.ts:104-126 | the header repeats topic, date and background verbatim on labelled lines, and the summary quotes the topic |
| AdvisoryBoard.MeetingFrame | src/index.ts:104-127 | the meeting starts with the header and ends with the summary |
| AdvisoryBoard.MeetingSectionAt | src/index.ts:113-123 | section `i` sits unchanged at its offset after the header |
| AdvisoryBoard.MeetingSeparatorAt | src/index.ts:123 | one line break separates each section from the next, and the next section starts right after it |
| AdvisoryBoard.Section | src/index.ts:115-122 | no ensures of its own; its contract is `SectionCarriesOwnTemplate` |
| AdvisoryBoard.Sections | src/index.ts:115-123 | no ensures of its own; its contract is `SectionOfAdvisor` |
| AdvisoryBoard.SectionCarriesOwnTemplate | src/index.ts:116-122 | a requested advisor's section opens with the `### name - role` heading of its key and contains that key's rendered template |
| AdvisoryBoard.SectionOfAdvisor | src/index.ts:115-123 | there is one section per requested key, in order and with duplicates kept; the `i`-th is headed and filled from the `i`-th key |
| AdvisoryBoard.AdvisorInfo | src/index.ts:140-146 | no ensures of its own; its contract is `AdvisorInfoShowsRecord` |
| AdvisoryBoard.AdvisorInfoShowsRecord | src/index.ts:140-146 | the card opens with name and role, shows the labelled style, and ends with the labelled expertise of the key's record; different keys give different cards |
| AdvisoryBoard.ListAdvisors | src/index.ts:154-158 | no ensures of its own; its contract is `ListAdvisorsCoversRegistry` |
| AdvisoryBoard.ListAdvisorsCoversRegistry | src/index.ts:155-157 | one item per declared advisor, in declaration order; each item shows its key in parentheses and sits unchanged at its offset of the roster |
| StdioBoard.EnumHasNoDuplicates | index.ts:30 | the schema's enumeration lists each advisor once |
| StdioBoard.SchemaMatchesTable | index.ts:5-17 | the table's keys are exactly the enumeration at line 30, in order, and are distinct, so the lookup at line 35 never fails |
| StdioBoard.AdviceOf | index.ts:35 | `ADVISORS[advisor]` is the advice declared under that key |
| StdioBoard.Label | index.ts:36 | no ensures of its own; its contract is `LabelShape` |
| StdioBoard.LabelShape | index.ts:36 | the label is the upper-cased key with only its first `_` turned into a space; later `_` stay |
| StdioBoard.LabelOfTwoWords | index.ts:36 | a `first_last` key is labelled `FIRST LAST` |
| StdioBoard.TimCookLabel | index.ts:36 | `tim_cook` is labelled `TIM COOK` |
| StdioBoard.Blocks | index.ts:34-37 | no ensures of its own; its contract is `BlockOfAdvisor` |
| StdioBoard.BlockOfAdvisor | index.ts:34-37 | one block per requested key, in order and with duplicates kept; the `i`-th opens with the bold label of the `i`-th key and ends with its advice, unchanged |
| StdioBoard.HoldBoardMeeting | index.ts:33-54 | no ensures of its own; its contract is `MeetingEchoesArguments`, `MeetingFrame`, `MeetingBlockAt` and `MeetingSeparatorAt` with `BlockOfAdvisor` |
| StdioBoard.MeetingEchoesArguments | index.ts:39-42 | the header repeats the topic and the background verbatim on labelled lines |
| StdioBoard.MeetingFrame | index.ts:39-49 | the meeting starts with the header, which ends with the responses heading, and ends with the fixed footer |
| StdioBoard.MeetingBlockAt | index.ts:39-46 | block `i` sits unchanged at its offset after the header |
| StdioBoard.MeetingSeparatorAt | index.ts:37 | a blank line separates each block from the next, and the next block starts right after it |
| StdioBoard.UpperOfLower | index.ts:65-74 | helper for `NameLabelsKey`: upper-casing a lower-cased text equals upper-casing the text, so a roster name and its key give the same label |
| StdioBoard.NameLabelsKey | index.ts:65-74 | the display name `First Last`, upper-cased, is the label of the key `first_last` |
| StdioBoard.ListAdvisors | index.ts:61-77 | no ensures of its own; its contract is `RosterFollowsTable` and `RosterLineAt` |
| StdioBoard.RosterFollowsTable | index.ts:65-74 | the roster names the six advisors in the table's order: the `i`-th upper-cased name is the label of the `i`-th key |
| StdioBoard.RosterLineAt | index.ts:65-74 | each bulleted roster line sits unchanged at its offset after the roster title |

## Left out

- Tool registration with FastMCP and McpServer is not modelled (src/index.ts:4-7, src/index.ts:94-102, src/index.ts:134-139, src/index.ts:150-153; index.ts:19-32, index.ts:57-60). Only the bodies the tools run are modelled. The MCP result wrapping in index.ts is left out for the same reason: `{ content: [{ type: "text", text }] }` is modelled as the text alone.
- The Cloudflare `fetch` export (src/index.ts:161-166) is not modelled: it is transport.
- The hand-written SSE handler of index.ts is not modelled. It covers the JSON-RPC initialize payload, the `tools/list` response and the headers (index.ts:80-167). It is I/O that writes to a stream.
- The stdio transport bootstrap (index.ts:169-173) is not modelled: it is process I/O.
- Zod argument validation is a precondition: every requested key belongs to the table. The schema's string checks on `topic` and `background` are not modelled, because the model's strings are already strings.
- `new Date().toLocaleDateString()` (src/index.ts:107) is a parameter `date`: it depends on the clock and the locale.
- `toLowerCase` and `toUpperCase` are modelled for ASCII only, since every key and name is ASCII. Full Unicode case mapping is out of scope.
- The `async` handlers and their promises become plain functions. Nothing in them runs concurrently.
- Prototype-chain properties are not modelled: JavaScript property lookup also sees inherited names such as `constructor`, while `Table.Find` searches only the declared entries. No derived key of a registered advisor is such a name.
- `generateResponse` takes `advisor: any`. The model passes an `Advisor` record: the only callers pass registry records.
- `AdvisoryBoard.GenerateResponseSelects` does not state the `||` fallback for an empty template separately: `Valid` rules empty fixed texts out, and a template that quotes the topic is never empty.
