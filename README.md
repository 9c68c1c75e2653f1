# SequenceGenius: diagram extraction and the request/render controller

SequenceGenius is a single Next.js page that sends a natural-language scenario
to a proxy route, which asks a chat-completion model for a Mermaid diagram
definition and returns the completion text. The page then turns that raw text
into the diagram string and renders it. This project models the page's own
logic in `pages/index.tsx`:

- **the extractor** (line 106): split the completion on `"\n"`, drop every line
  that starts with the fence marker ```` ``` ````, join the remaining lines with
  `"\n"`;
- **the acceptance rule** (lines 107-109): the extracted text becomes the
  diagram only if it is non-empty and is not exactly the sentinel
  `UNKNOWN_ERROR`, which the model is told to emit for unusable input and which
  the proxy returns when the completion has no message (`pages/api/magic.ts`,
  line 39);
- **the controller** (lines 66-70, 85-117, 47, 189, 209-210): the state hooks
  `apiKey`, `content`, `diagram` and `loading`, the Generate handler and its
  guard, the three parts of `requestDiagarm` around its awaits, and the rules
  that enable the Generate, Code (copy) and SVG buttons.

Files:

- `text_lines.dfy`: module `TextLines`, ECMAScript `split` and `join` with a
  one-character separator (`"".split("\n")` is `[""]`), with both round trips;
  module `Trimming`, ECMAScript `trim` over the WhiteSpace and LineTerminator
  characters of the ECMAScript standard.
- `extraction.dfy`: module `Extraction`, the line filter, `Extract`, the
  sentinel and the acceptance test, with the properties of the extractor.
- `home.dfy`: module `Home`. The page state is a `UiState` value. Every page
  event (editing the key, editing the scenario, clicking Generate, an ok or a
  non-ok response) is a transition function `Step`, and `Run` applies a
  sequence of events. Lemmas state the page invariant and what each event does.
  The class `Page` keeps the same state in mutable fields. Its methods update
  those fields as the component's setters do. `SetApiKey`, `SetContent`,
  `ReceiveOk`, `ReceiveNotOk` and `ClickGenerateButton` are each proved equal
  to `Step` on their event. `RequestDiagram` is proved equal to `Started`.
  `GenerateBtnHandler` is proved equal to `Started` or to no change, and to
  `Step` on a click whenever the button is enabled. The constructor yields
  `Initial`.

The controller state has one field that the source keeps implicitly:
`awaiting` says that a `requestDiagarm` call is suspended at one of its two
awaits: `await fetch(...)` (line 90) or `await response.json()` (line 105).
A response can only arrive while it is true. No state changes between the two
awaits, so the model treats them as one wait. A `json()` that rejects leaves the
state exactly as a non-ok response does.
The source's `requestDiagarm` is split at that wait into
`RequestDiagram` (lines 86-88), `ReceiveOk` (lines 105-110) and `ReceiveNotOk`
(lines 101-103). The model's name corrects the source's spelling.

A non-ok response throws at line 102, before `setLoading(false)` at line 110.
The model keeps that behaviour: `loading` stays true and the diagram stays
empty. The Generate guard (`!loading`) then refuses every later request, so the
page can never leave the loading state again. `StuckAfterFailure` proves this
for every later sequence of events.

## Model

| member | source | states |
|---|---|---|
| `TextLines.Join` | pages/index.tsx:106 | `join("\n")`: one separator between neighbouring lines, `""` for no lines; no contract, specified by `JoinSplit` and `SplitJoin` |
| `TextLines.Split` | pages/index.tsx:106 | `split("\n")` yields at least one line, and no line contains the separator |
| `TextLines.JoinSplit` | pages/index.tsx:106 | joining the lines of a split with the same separator gives back the original text |
| `TextLines.SplitJoin` | pages/index.tsx:106 | splitting a join of one or more separator-free lines gives back exactly those lines |
| `Trimming.IsSpace` | pages/index.tsx:114 | the characters `trim()` removes: ECMAScript white space and line terminators; no contract |
| `Trimming.Trim` | pages/index.tsx:114 | `trim()` as `TrimEnd` after `TrimStart`; no contract, specified by `TrimStart`, `TrimEnd` and `TrimNonEmpty` |
| `Trimming.TrimStart` | pages/index.tsx:114 | the result is a suffix of the input, everything dropped is white space, and the result does not start with white space |
| `Trimming.TrimEnd` | pages/index.tsx:114 | the result is a prefix of the input, everything dropped is white space, and the result does not end with white space |
| `Trimming.TrimNonEmpty` | pages/index.tsx:114 | `content.trim().length > 0` holds exactly when the content has a non-white-space character |
| `Extraction.StartsWith` | pages/index.tsx:106 | `startsWith` as the sequence prefix test; no contract |
| `Extraction.Fenced` | pages/index.tsx:106 | the filtered-out test `line.startsWith("```")`; no contract |
| `Extraction.Extract` | pages/index.tsx:106 | the whole `split`/`filter`/`join` chain; no contract, specified by the `Extract*` lemmas below |
| `Extraction.Accepted` | pages/index.tsx:107 | the acceptance test `diagram.length && diagram !== "UNKNOWN_ERROR"`; no contract, used by `SentinelRejected`, `AcceptedExtraction` and the controller lemmas |
| `Extraction.ProxyResult` | pages/api/magic.ts:39 | the proxy's `?? "UNKNOWN_ERROR"` fallback when the completion has no message; no contract, used by `SentinelRejected` |
| `Extraction.KeptLines` | pages/index.tsx:106 | the filter's result is no longer than its input and none of its lines starts with the fence |
| `Extraction.KeptLinesMembers` | pages/index.tsx:106 | a line is kept iff it is an input line that does not start with the fence |
| `Extraction.KeptLinesAppend` | pages/index.tsx:106 | filtering distributes over concatenation, so kept lines keep their relative order |
| `Extraction.KeptLinesSubsequence` | pages/index.tsx:106 | the kept lines are a subsequence of the input lines |
| `Extraction.KeptLinesAllKept` | pages/index.tsx:106 | when no line is fenced, the filter returns its input unchanged |
| `Extraction.KeptLinesAllFenced` | pages/index.tsx:106 | when every line is fenced, the filter returns no lines |
| `Extraction.ExtractLines` | pages/index.tsx:106 | splitting the extracted text again gives exactly the kept lines of the raw text, or `[""]` when none is kept |
| `Extraction.ExtractFenceFree` | pages/index.tsx:106 | no line of the extracted text starts with the fence |
| `Extraction.ExtractIdempotent` | pages/index.tsx:106 | extracting the extracted text again returns it unchanged |
| `Extraction.ExtractUnfenced` | pages/index.tsx:106 | a raw text with no fenced line is returned unchanged |
| `Extraction.ExtractAllFenced` | pages/index.tsx:106 | a raw text whose every line is fenced extracts to `""` |
| `Extraction.KeptFencedBlock` | pages/index.tsx:106 | a block of plain lines between two fence lines filters to the block itself |
| `Extraction.FencedBlockSeparatorFree` | pages/index.tsx:106 | adding the two fence lines around separator-free lines keeps every line separator-free |
| `Extraction.ExtractFencedBlock` | pages/index.tsx:106 | a block of plain lines between two fence lines extracts to the block's lines joined by newlines |
| `Extraction.ExtractFencedExample` | pages/index.tsx:106 | ```` "```\nA->>B: Request\nB->>A: Response\n```" ```` extracts to `"A->>B: Request\nB->>A: Response"` |
| `Extraction.SentinelRejected` | pages/index.tsx:106-109 | the sentinel reply, and the proxy's fallback for a missing message, both extract to `UNKNOWN_ERROR` and are not accepted |
| `Extraction.AcceptedExtraction` | pages/index.tsx:106-109 | an accepted diagram splits into exactly the unfenced lines of the raw reply, and there is at least one such line |
| `Home.GenerateEnabled` | pages/index.tsx:189 | the Generate button is enabled iff `apiKey` and `content` are non-empty; no contract, used by `Step` and `ClickGenerateStarts` |
| `Home.RequestGuard` | pages/index.tsx:114 | the handler's guard `!loading && content.trim().length > 0`; no contract, characterised by `ClickGenerateStarts` |
| `Home.ExportEnabled` | pages/index.tsx:209-210 | Code and SVG are enabled iff there is a diagram and no request is loading (`disabled \|\| loading` at line 47); no contract, characterised by `ReachableExport` |
| `Home.RendersDiagram` | pages/index.tsx:79 | the renderer runs only when there is a diagram; no contract, characterised by `ReachableExport` |
| `Home.Started` | pages/index.tsx:86-88 | the start of a request: `diagram` cleared, `loading` set, the answer awaited; no contract, specified by `ClickGenerateStarts` |
| `Home.Answered` | pages/index.tsx:105-110 | an ok answer: the extraction replaces the diagram if accepted, then `loading` is cleared; no contract, specified by `OkAnswerCompletes` |
| `Home.Failed` | pages/index.tsx:101-103 | a non-ok answer throws before `setLoading(false)`, so only the wait ends; no contract, specified by `NotOkAnswerStaysLoading` |
| `Home.Step` | pages/index.tsx:85-117 | one page event (key edit, content edit, Generate click, ok or non-ok answer) as a transition; no contract, specified by the lemmas below; `SetApiKey`, `SetContent`, `ReceiveOk`, `ReceiveNotOk` and `ClickGenerateButton` are proved equal to it on their events |
| `Home.Run` | pages/index.tsx:85-117 | a sequence of page events applied in order; no contract, specified by `RunConsistent`, `ReachableExport` and `StuckAfterFailure` |
| `Home.Consistent` | pages/index.tsx:85-117 | the page invariant: awaiting implies loading, loading implies no diagram, a diagram is an accepted fence-free extraction; no contract, preserved by `StepConsistent` and `RunConsistent` |
| `Home.Page.Valid` | pages/index.tsx:66-70 | the component's state hooks satisfy `Consistent`; no contract, kept by every `Page` method |
| `Home.StepConsistent` | pages/index.tsx:85-117 | every page event keeps the invariant: awaiting implies loading, loading implies no diagram, and a diagram is an accepted, fence-free extraction |
| `Home.RunConsistent` | pages/index.tsx:85-117 | every sequence of events keeps that invariant |
| `Home.ReachableExport` | pages/index.tsx:209-210 | in every reachable state, Code/SVG are enabled iff a diagram is shown, and a rendered diagram (line 79) is accepted, fence-free and not loading |
| `Home.ClickGenerateStarts` | pages/index.tsx:113-117 | a Generate click starts a request iff key and content are non-empty, nothing is loading and the content has a visible character; a started request clears the diagram, sets `loading` and keeps the inputs; otherwise nothing changes |
| `Home.OkAnswerCompletes` | pages/index.tsx:105-110 | after an ok response `loading` is false; the diagram is the extraction when it is accepted, and then its lines are exactly the reply's unfenced lines; otherwise it is `""` |
| `Home.NotOkAnswerStaysLoading` | pages/index.tsx:101-103 | after a non-ok response `loading` stays true, the diagram stays `""` and copy/SVG stay disabled |
| `Home.StuckAfterFailure` | pages/index.tsx:101-117 | after a failed request, every later sequence of events leaves the page loading with no diagram |
| `Home.FencedReplyScenario` | pages/index.tsx:85-117 | for scenario "OAuth2 flow for backend service", a click followed by the fenced two-line reply shows `"A->>B: Request\nB->>A: Response"` with loading off and export enabled |
| `Home.SentinelReplyScenario` | pages/index.tsx:107-110 | a request answered with the sentinel, or with the proxy's fallback, ends with no diagram, loading off and copy/SVG disabled |
| `Home.Page.constructor` | pages/index.tsx:66-70 | the state hooks start as `''`, `''`, `''`, `false` |
| `Home.Page.SetApiKey` | pages/index.tsx:166-170 | the key input sets `apiKey` and nothing else |
| `Home.Page.SetContent` | pages/index.tsx:175-180 | the text area sets `content` and nothing else |
| `Home.Page.RequestDiagram` | pages/index.tsx:85-90 | starting a request clears `diagram` and sets `loading`; `apiKey` and `content` are unchanged; the new state is `Started` of the old one |
| `Home.Page.ReceiveOk` | pages/index.tsx:105-110 | an ok response clears `loading` and sets `diagram` to the extraction if accepted, else leaves it `""` |
| `Home.Page.ReceiveNotOk` | pages/index.tsx:101-103 | a non-ok response throws: `loading` stays true and `diagram` stays `""` |
| `Home.Page.GenerateBtnHandler` | pages/index.tsx:113-117 | a request starts iff `!loading` and the trimmed content is non-empty, with the new state `Started`; otherwise the state is unchanged; when the Generate button is enabled this equals `Step` on a click |
| `Home.Page.ClickGenerateButton` | pages/index.tsx:188-194 | the Generate button is disabled unless `apiKey` and `content` are non-empty; a click agrees with `Step` |

## Left out

- Mermaid rendering (`mermaid.initialize`, `mermaid.contentLoaded`, the `data-processed` attribute, lines 72-83 and 86). These are calls into a foreign library and DOM updates. The model keeps only the condition at line 79, as `RendersDiagram`.
- Clipboard copy and the SVG Blob/URL download (lines 124-145). These are browser I/O. Only their enable condition is modelled.
- The `done` flag of `ActionButton` and its `setTimeout` reset (lines 35-40). It is timer-driven UI state.
- The random example picker (lines 119-122). It uses `Math.random` and floating-point `floor`. An edit of `content` (`SetContent`) covers its effect on the state.
- JSX markup, icons and styling.
- The HTTP call itself. The response is an input to the model: an ok status with its `result` text, or a non-ok status. JSON parsing, the request body (which also carries `apiKey`) and network errors that reject `fetch` are not modelled. A rejected `fetch` would leave the state exactly as a non-ok response does.
- The proxy route `pages/api/magic.ts` is not part of this model. Its start-up credential check, prompt construction, logging and upstream call are omitted. Only its fallback to `UNKNOWN_ERROR` when the completion has no message (line 39) is modelled, as `ProxyResult`.
- React's asynchronous state updates. Events are applied one after another, each seeing the previous one's state. Two clicks handled before a re-render could both read the old `loading` in the real component; the model does not capture that.
- JavaScript strings are UTF-16 code units; the model uses Dafny characters. Splitting on `"\n"`, the three-backtick prefix test, the emptiness test and `trim` do not depend on the difference.
- `pages/_document.tsx` is not part of this model; it is static markup.
