# Batch transfer and swap front end — a Dafny model

This project models the logic of a small React front end for batching token
transfers and cross-chain swaps that runs on in-memory data. Its parts are:

- the validators and formatters of `lib/utils.ts`: the address regular
  expression, the amount check, address shortening and relative timestamps;
- the session state of the home page (`app/page.tsx`) as the class
  `HomePage.Session`, with three ordered lists (templates, transactions,
  batches), the active view and the loading flag. Its handlers create a batch
  and its pending transactions for a submission, and add, delete and open
  templates;
- the two forms as classes. `BatchTransferForm.Form` holds the recipient list
  editor, its validation and the config it builds. `SwapForm.Form` holds the
  from/to exchange, the validity rule and the config it builds;
- the two lists, as pure functions: the template filter with its empty-state
  message, and the transaction filter with the status counters.

Records come from `lib/types.ts` (module `Types`). Dates are integer
milliseconds. `generateId()` and `new Date()` become parameters of the
operations that use them, one parameter per call: a transfer submission reads
the clock once for its batch and once per recipient, and a swap submission
once for its batch and once for its transaction, so those timestamps may
differ. `parseFloat` becomes a function parameter of type
`Utils.FloatParser`, which returns NaN, a finite real or an infinity.

Modules follow the source files. `Seqs` holds `Array.prototype.filter` and
`slice`, and the order-preserving subsequence relation. `JsString` holds
`trim`, `toLowerCase`, `includes` and the decimal rendering of an integer in
a template literal.

Points where the code and its design description differ (the model follows the
code):

- `validateAmount` accepts `Infinity` (for example `"1e400"`), because it only
  rejects NaN and values that are not positive. It does not require a finite
  number.
- No code rejects a swap slippage outside 0.1–50, duplicate recipient
  addresses or a recipient count outside 1–50 at submission. The upper bound
  is kept by the Add button, which is disabled at 50
  (components/features/BatchTransferForm.tsx:135). The lower bound is kept by
  `removeRecipient`'s own guard (line 47), but only while recipient ids are
  distinct. If `generateId` ever returned an id already in the list, removing
  that id would drop both rows: with two rows left, the list becomes empty.
  `every` is true on an empty list, so a batch with no recipients could then
  be submitted. The model keeps ids distinct by requiring each new id to be
  fresh (`BatchTransferForm.Form.Valid`), so it does not reach that state.
- No code moves a transaction from pending to processing, completed or
  failed, and no code updates a batch's counters after creation.
- Editing a template only opens the matching form; the template's values are
  not loaded.
- The mock data in `app/page.tsx` holds a failed transaction of `batch3`, and
  no such batch exists. The model starts from empty lists. From there,
  `Session.Valid` is kept by every handler: every transaction belongs to a
  batch the session holds, and no batch counts more finished transactions
  than it has.

## Model

| member | source | states |
|---|---|---|
| `Utils.ValidateAddress` | lib/utils.ts:42-44 | true iff the string is exactly `0x` followed by 40 characters of `[0-9a-fA-F]`, so 42 characters in all |
| `Utils.MatchHexRun` | lib/utils.ts:43 | the `[a-fA-F0-9]{n}$` part of the expression matches iff the rest is exactly n hexadecimal digits |
| `Utils.ValidateAmount` | lib/utils.ts:46-49 | false when the parse is NaN, −∞ or a finite value ≤ 0; true for a finite value > 0 and for +∞ |
| `Utils.FormatAddress` | lib/utils.ts:7-10 | `""` for `""`; otherwise the first min(6,n) characters, `...`, and the last min(4,n) characters, computed through JavaScript `slice` semantics with a negative start |
| `Utils.FormatValidAddress` | lib/utils.ts:7-10 | a valid address is shown as 13 characters: `0x` and four digits, `...`, and its last four digits |
| `Utils.FloorDiv` | lib/utils.ts:28-30 | `Math.floor(a / b)` for b > 0 is the q with q·b ≤ a < q·b + b |
| `Utils.ElapsedSince` | lib/utils.ts:27-35 | exactly one bucket applies. It is "just now" iff less than a minute has passed, which includes every future timestamp. Otherwise it is m minutes with 1 ≤ m < 60 below an hour, h hours with 1 ≤ h < 24 below a day, and d ≥ 1 days after that, each count being the whole units elapsed |
| `Utils.ParseRender` | lib/utils.ts:32-35 | the rendered text (`Just now`, `{m}m ago`, `{h}h ago`, `{d}d ago`) reads back to the same bucket and count |
| `Utils.RenderParse` | lib/utils.ts:32-35 | reading back is one-to-one: a text that reads back to a bucket is that bucket's rendering, since a count is accepted only without leading zeros |
| `Utils.FormatTimestamp` | lib/utils.ts:25-36 | returns "Just now" iff less than a minute has passed; in every case the text reads back to the bucket `ElapsedSince` gives, and it is the only text that does, so the text is fixed exactly |
| `JsString.TrimStart` | components/features/BatchTransferForm.tsx:80 | drops a leading run of white space: the result is a suffix of the input and does not start with white space |
| `JsString.TrimEnd` | components/features/BatchTransferForm.tsx:80 | drops a trailing run of white space: the result is a prefix of the input and does not end with white space |
| `JsString.Trim` | components/features/BatchTransferForm.tsx:80 | `name.trim()` is empty iff the name is all white space |
| `JsString.ToLower` | components/features/TemplateManager.tsx:29 | same length, each character lower-cased |
| `JsString.Contains` | components/features/TemplateManager.tsx:29 | `s.includes(sub)` is true iff `sub` occurs at some position of `s` |
| `JsString.NatToString` | app/page.tsx:121 | the decimal text of a count has only digits, no leading zero, and reads back to the number |
| `JsString.NatToStringOfDecimal` | lib/utils.ts:33-35 | every digit string without leading zeros is the rendering of its own value, so a rendered count is determined by its value |
| `Seqs.Filter` | components/features/TemplateManager.tsx:27-31 | `filter` returns an order-preserving subsequence holding exactly the elements that pass, each passing value as many times as it occurs in the input and every failing value zero times |
| `Seqs.FilterKeepsAll` | app/page.tsx:205 | a filter that every element passes returns the whole list |
| `Seqs.FilterKeepsNone` | app/page.tsx:117-138 | a filter that no element passes returns the empty list; with `FilterConcat`, the step of `TransferBatchMatchesMembers` that discards the earlier transactions when counting a new batch's members |
| `Seqs.FilterConcat` | app/page.tsx:117-138 | filtering the concatenation of two lists gives the two filtered lists concatenated; used by `TransferBatchMatchesMembers` to count the new batch's members across the new and the earlier transactions |
| `HomePage.NewPending` | app/page.tsx:164-171 | a new transaction is pending for user1 with the given id, type and batch, and has no template, completion time, hash or error |
| `HomePage.TransferBatch` | app/page.tsx:117-126 | the transfer batch has the new id, `totalTransactions` = number of recipients, no completed or failed transactions, and consistent counters |
| `HomePage.PendingTransfers` | app/page.tsx:128-135 | exactly one transaction per recipient, in order, each a pending `transfer` in the new batch with its own generated id and its own clock reading |
| `HomePage.SwapBatch` | app/page.tsx:153-162 | the swap batch has `totalTransactions` = 1 and no completed or failed transactions |
| `HomePage.TransferBatchMatchesMembers` | app/page.tsx:117-138 | after a transfer submission with a batch id no earlier transaction uses, the batch's `totalTransactions` equals the number of transactions that carry its id, whatever the clock readings |
| `HomePage.SwapBatchMatchesMembers` | app/page.tsx:153-174 | after a swap submission with an unused batch id, exactly one transaction carries it, matching `totalTransactions` = 1 |
| `HomePage.NewTemplate` | app/page.tsx:184-191 | a saved template keeps the given name, type and config, with the new id and time |
| `HomePage.WithoutTemplate` | app/page.tsx:204-206 | removes exactly the templates with that id and keeps every other template, repeated ones included, in order; returns the list unchanged when the id is absent |
| `HomePage.FormViewFor` | app/page.tsx:196-215 | a transfer template opens the transfer form and any other opens the swap form |
| `HomePage.RecentActivity` | app/page.tsx:333 | the recent-activity panel shows the first min(3, n) transactions |
| `HomePage.Session.constructor` | app/page.tsx:26-30 | starts on the dashboard, not loading, with three empty lists |
| `HomePage.Session.HandleBatchTransfer` | app/page.tsx:111-145 | prepends the new batch, created at its own clock reading, and its transactions, each with its own reading; all earlier batches and transactions follow in order; templates unchanged; view `history`; `isLoading` false; `Valid` kept |
| `HomePage.Session.HandleSwap` | app/page.tsx:147-181 | prepends one batch and its one pending swap transaction, which share the batch id and each carry their own clock reading; earlier lists follow unchanged; view `history`; `isLoading` false; `Valid` kept |
| `HomePage.Session.HandleSaveTemplate` | app/page.tsx:183-194 | prepends one template; the earlier templates and every other field are unchanged |
| `HomePage.Session.HandleDeleteTemplate` | app/page.tsx:204-206 | templates become `WithoutTemplate(old, id)`; no other field changes |
| `HomePage.Session.HandleUseTemplate` | app/page.tsx:196-202 | opens the form for the template's type; no list changes |
| `HomePage.Session.HandleEditTemplate` | app/page.tsx:208-215 | opens the form for the template's type; no list changes |
| `HomePage.Session.SelectView` | app/page.tsx:382 | a navigation button sets the view; no list changes |
| `BatchTransferForm.WithField` | components/features/BatchTransferForm.tsx:54 | `{ ...r, [field]: value }` sets that field to the value; the id and the other fields are kept |
| `BatchTransferForm.UpdateById` | components/features/BatchTransferForm.tsx:52-56 | same length; recipients with the id get the field updated; every other recipient is unchanged |
| `BatchTransferForm.WithoutRecipient` | components/features/BatchTransferForm.tsx:48 | keeps exactly the recipients whose id differs, in order, each as often as it occurs |
| `BatchTransferForm.RemoveDistinct` | components/features/BatchTransferForm.tsx:46-50 | when ids are distinct, removing an id drops exactly one recipient if the id is present and none otherwise, and the ids stay distinct |
| `BatchTransferForm.AllValid` | components/features/BatchTransferForm.tsx:58-62 | true iff every recipient has a valid address and a valid amount |
| `BatchTransferForm.Specs` | components/features/BatchTransferForm.tsx:69-73 | same length and order; address, amount and label are copied and the id is dropped |
| `BatchTransferForm.BuildConfig` | components/features/BatchTransferForm.tsx:67-74 | the config has the selected token and those recipient entries |
| `BatchTransferForm.Form.constructor` | components/features/BatchTransferForm.tsx:30-35 | first token selected, one empty recipient, no template name, dialog closed |
| `BatchTransferForm.Form.AddRecipient` | components/features/BatchTransferForm.tsx:37-44 | appends one recipient with empty address, amount and label; earlier recipients unchanged; 1 ≤ n ≤ 50 and distinct ids kept, given the Add button is disabled at 50 (line 135) |
| `BatchTransferForm.Form.RemoveRecipient` | components/features/BatchTransferForm.tsx:46-50 | a no-op with one recipient left; otherwise removes the recipient with the id, keeping the others in order; the list never drops below one |
| `BatchTransferForm.Form.UpdateRecipient` | components/features/BatchTransferForm.tsx:52-56 | recipients become `UpdateById(old, id, field, value)`; nothing else changes |
| `BatchTransferForm.Form.Submission` | components/features/BatchTransferForm.tsx:64-77 | something is submitted iff the form is valid. What is submitted is the built config: 1–50 recipients, all valid |
| `BatchTransferForm.Form.HandleSaveTemplate` | components/features/BatchTransferForm.tsx:79-94 | saves iff the trimmed name is non-empty and the form is valid, passing the untrimmed name and the config. On save, the name is cleared and the dialog closed; otherwise nothing changes |
| `SwapForm.Reversed` | components/features/SwapForm.tsx:32-37 | exchanges from/to token and from/to chain |
| `SwapForm.ReversedTwice` | components/features/SwapForm.tsx:32-37 | exchanging twice restores the route |
| `SwapForm.SwapTwiceRestores` | components/features/SwapForm.tsx:32-37 | two presses of the exchange button restore the form's route |
| `SwapForm.BuildConfig` | components/features/SwapForm.tsx:46-53 | the config's fields equal the form's, with `slippageTolerance` = slippage |
| `SwapForm.Form.constructor` | components/features/SwapForm.tsx:23-30 | from ETH to USDC, which differ; Base on both sides; no amount; slippage 0.5; no name; dialog closed |
| `SwapForm.Form.SwapTokens` | components/features/SwapForm.tsx:32-37 | the route becomes its reverse; amount, slippage and dialog state are kept, and so is validity under any parser |
| `SwapForm.Form.Submission` | components/features/SwapForm.tsx:39-56 | submits iff the amount is valid and `fromToken != toToken`, so identical tokens always block it. What is submitted holds the form's fields |
| `SwapForm.Form.HandleSaveTemplate` | components/features/SwapForm.tsx:58-73 | saves iff the trimmed name is non-empty, the amount is valid and the tokens differ. On save, the name is cleared and the dialog closed; otherwise nothing changes |
| `TemplateManager.FilteredTemplates` | components/features/TemplateManager.tsx:27-31 | an order-preserving subsequence. Every template that passes both the type test and the case-insensitive name test is kept, as often as it occurs, and no other. Under `transfer` or `swap`, every result has that type. With a non-empty query, every result's lower-cased name contains the lower-cased query |
| `TemplateManager.ShowAllWithoutFilters` | components/features/TemplateManager.tsx:27-31 | filter `all` with an empty query returns the whole list |
| `TemplateManager.EmptyMessage` | components/features/TemplateManager.tsx:89-92 | no message while something matches; "No templates saved yet" iff there are no templates; "No templates match your search" when there are some but none match |
| `TransactionDashboard.BatchSelection` | components/features/TransactionDashboard.tsx:108-109 | the empty "All Batches" value maps to no selection, any other value to itself |
| `TransactionDashboard.FilteredTransactions` | components/features/TransactionDashboard.tsx:27-31 | an order-preserving subsequence holding every transaction that passes both tests, as often as it occurs, and no other. A status filter keeps only that status. A `processing` transaction appears only under `all` (the buttons at line 94). A selected batch keeps only its transactions |
| `TransactionDashboard.ShowAllWithoutFilters` | components/features/TransactionDashboard.tsx:27-31 | `all` with the empty batch selection lists every transaction |
| `TransactionDashboard.StatusCountsPartition` | components/features/TransactionDashboard.tsx:33-39 | pending + processing + completed + failed = total, since the status has four values |
| `TransactionDashboard.ComputeStats` | components/features/TransactionDashboard.tsx:33-39 | `stats.total` is the number of transactions; `pending`, `processing`, `completed` and `failed` are each the number of transactions with that status; the four add up to the total |
| `TransactionDashboard.ActiveCount` | components/features/TransactionDashboard.tsx:54 | the Active figure (pending + processing) is the total less the completed and failed counts |

## Left out

- JSX rendering and class strings, `components/ui/Input.tsx`, `components/ui/StatusIndicator.tsx`, `app/error.tsx`, `app/loading.tsx`: presentation only.
- `components/layout/Header.tsx`, `useMiniKit` and `setFrameReady` (app/page.tsx:25-34): wrappers over an external wallet library.
- The mock data loaded in `useEffect` (app/page.tsx:37-109): fixed demonstration data. The session starts from empty lists.
- `generateId` (lib/utils.ts:38-40): uses `Math.random` and `Date.now`. Ids are parameters, and the model claims no uniqueness the code lacks. The only exception is the recipient list, whose removal rule needs distinct ids; there a new id is required to be fresh.
- `cn` (lib/utils.ts:3-5): a call into `clsx`, which is not part of this model.
- Floating-point arithmetic: `formatAmount`, the form's `totalAmount`, the swap's estimated output and minimum received, template totals, and the slippage `parseFloat(...) || DEFAULT_SLIPPAGE` fallback.
- `parseFloat` itself: it is a parameter. The model does not fix which strings parse to which numbers.
- The simulated two-second delay and the `try`/`catch`/`finally` of the submission handlers. Each handler is one atomic step. Nothing in the modelled `try` blocks can fail, so the `catch` branches are not represented. The handlers end with `isLoading` false, as `finally` ensures.
- `handleRefreshTransactions` (app/page.tsx:217-220): it only writes to the console.
- One-field setters bound to inputs: the token and chain selects, the amount input, the slippage buttons, the template-name input, and opening or closing the save dialog. Each assigns one field and nothing is claimed about them.
- `BatchTransferForm.Form.UpdateRecipient`: `field` ranges over address, amount and label, which are the only fields the form's inputs pass. The `'id'` key that the TypeScript signature also allows is not modelled.
- `BatchTransferForm.Form.AddRecipient`: requires fewer than 50 recipients and a fresh id. The function itself has no such guard; its only caller, the Add button, is disabled at 50.
- `JsString.ToLower`: maps only the ASCII letters. `toLowerCase` also maps the rest of Unicode.
- Strings are sequences of Unicode scalar values rather than UTF-16 code units. `slice` on text with characters outside the Basic Multilingual Plane can therefore differ.
- `Utils.FormatTimestamp`: uses exact integer floor division. The source divides doubles and floors the result, which agrees for the integer millisecond differences of real dates.
- `lib/constants.ts`: the four values the logic reads are inlined as constants: the first two token symbols, the first chain name, and the default slippage. The limit of 50 recipients is not one of them: the Add button of components/features/BatchTransferForm.tsx:135 compares with the literal `50`, and `MAX_RECIPIENTS_PER_BATCH` (lib/constants.ts:56) is declared but never read; `BatchTransferForm.MaxRecipients` models the literal.
- The `User` record of `lib/types.ts` is used by no modelled operation.
