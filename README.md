# ballad-go reorder buffer, in Dafny

ballad-go reads URLs from standard input, one per line. It sends a HEAD request
for each of them concurrently and prints `<status>\t<url>` lines in the order
the URLs were read, however the responses arrive. The repository has two
drafts of the program, `ballad.go` and `main.go`. Both keep responses that
arrived early in a `stock` list. For each URL, taken in reading order, they
print the matching entry, remove it, and then test whether the program may end.

This project models that reorder buffer and the status rendering, draft by
draft, and proves what each one guarantees.

- `Format` (format.dfy): `strconv.Itoa` as `Itoa`, the output line
  `<status>\t<url>\n` as `Line`, and a parser for each. The lemmas prove that
  parsing gives back what was rendered.
- `Stock` (stock.dfy): the stock entries (`ResponseSet`, the response being
  `Option<int>`, absent when the fetch failed), and the splice
  `append(stock[:i], stock[i+1:]...)` as `RemoveAt`. `FirstMatch` and the loop
  `FindEntry` model the first-match scan. `InOrder` states, for both drafts, that
  the printed URLs followed by those still to print are the URLs read.
- `Ballad` (ballad.dfy): the draft `ballad.go`. The class `Pipeline` holds the
  printer's queue `printq`, the fetch goroutines not yet started and those
  counted in `waitingq`, `stock`, `eof` and the output. Each goroutine step is
  a method: the scanner (`Submit`, `EndOfInput`), a fetch goroutine (`Start`
  for line 69, `Arrive` for the append of lines 70-73, `Leave` for line 74)
  and the printer (`TryEmit`, `RunPrinter`). The caller chooses the
  interleaving by the order of its calls. `Emit` is the printing half of
  `TryEmit`, a sub-step that the source reaches only through `TryEmit`;
  called on its own it could print a match that is not the first.
  `QuitTest` is the condition of line 95 over a count of running fetches.
  As written, the count is `len(waitingq)`, that is `|fetching| + |leaving|`.
  The corrected test in `Emit` counts `|unstarted| + |fetching|`;
  `QuitTestMeansAllPrinted` states what that test means.
- `Pool` (pool.dfy): the draft `main.go`. The class `Pipeline` holds
  `inCount`, `outCount`, `eof`, the URLs fetched by workers, `in2result`, the
  result goroutine's `input`, `stock` and the output. The ghost fields record
  what was read, dropped and printed. The caller interleaves the steps of
  the scanner (`Submit`, `EndOfInput`), a worker (`Arrive`) and the result
  goroutine (`TryEmit`). `EmitHeld`, `ReceiveAwaited`, `ReceiveOther` and
  `CheckDone` are sub-steps that the source reaches only through `TryEmit`
  and `Arrive`. Called on their own they allow runs the source never takes,
  such as `CheckDone` quitting right after a dropped fetch, though every
  invariant still holds. The invariant `Inv` is proved preserved by one
  state-level lemma per step (`SubmitStep`, `DropStep`, …).

The drafts differ in three ways, and the model keeps each difference.

- Scanning the stock: `ballad.go` stops at the first match (`break L`).
  `main.go` has no break, which the findings below deal with.
- Failed fetches: `ballad.go` stores an entry for every fetch and prints `???`
  for a failure. As written, `main.go` panics at line 63 on a failed fetch.
  Once line 63 is corrected, it drops a failed fetch and decrements `inCount`.
- The end test: `ballad.go` checks `eof`, `len(waitingq) == 0` and an empty
  stock. `main.go` checks `eof && inCount == outCount`.

A method whose channel operation would block returns `false` and changes
nothing. Examples are `Ballad.Pipeline.TryEmit` with no matching entry, and
`Pool.Pipeline.Arrive` while the result goroutine is not receiving.

Behaviour the model keeps as the code has it:

- Both drafts test for the end only right after a line is printed (or, in
  `main.go`, also when an input is taken and not found). With an empty input
  neither draft reaches its quit send. The `ballad.go` printer blocks at line
  86 and `main` at line 106. The `main.go` workers block in their `select`
  (lines 58-61), the result goroutine at line 82 and `main` at line 142. Every
  goroutine is then blocked on a channel, and the Go runtime aborts the
  program with its "all goroutines are asleep" deadlock error and no output.
  With everything fetched, `Ballad.Pipeline.RunPrinter` sets `quit` exactly
  when the input had ended and something was printed.
- For the same reason, when the end of input comes after the last line is
  printed, neither draft reaches its quit send. In `ballad.go` line 81 can
  run after the last test of line 95, and the printer then blocks at line 86.
  In `main.go` the result goroutine then blocks at line 82. The program does
  not end normally: it blocks, or the runtime aborts it once every goroutine
  is blocked. The model keeps this: after `EndOfInput`, `TryEmit` takes no
  step when nothing is left to print.
- In `main.go` a failed fetch produces no line at all. Take a URL that occurs
  once in the input and whose fetch fails. When the result goroutine takes it,
  no held response matches it and none will arrive for it:
  `Pool.AwaitedWithoutFetchWasDropped` shows this. The goroutine is then
  released only by the test of line 102 at that very moment. That test passes
  only if the input has ended and every other URL read has been printed or
  counted as failed; in particular, every URL after it must also have failed.
  Otherwise it waits at line 110 and the quit send is never reached, so the
  program does not end normally. This holds for the last URL too, when its
  failure is counted after the wait has begun.
  A failed probe is meant to print a sentinel line, as `ballad.go` does.
  The model follows the code of `main.go` here.
- `strings.TrimRight(scanner.Text(), "\n")` leaves a scanned line unchanged,
  because the scanner already strips the line end. `Submit` takes the URL as
  read.

## Model

| member | source | states |
|---|---|---|
| Format.NatToDecimal | ballad.go:131 | the decimal digits of a natural number: at least one digit, a leading zero only for 0, one digit exactly below 10 |
| Format.NatToDecimalRoundTrip | ballad.go:131 | the value of the digits of `n` is `n` |
| Format.Itoa | main.go:164 | `strconv.Itoa`: starts with a minus sign exactly for negative numbers, all digits after the sign |
| Format.ItoaRoundTrip | main.go:164 | parsing the text of `Itoa(n)` as a signed decimal gives back `n` |
| Format.ItoaInjective | main.go:164 | two different status codes never render the same text |
| Format.ItoaHasNoTab | ballad.go:131 | a rendered status never contains the tab that separates the fields |
| Format.TabIndex | ballad.go:91 | position of the first tab of a line, or its length when it has none |
| Format.Line | main.go:87 | the `%s\t%s\n` line: the status text, then one tab, then the URL, then a newline |
| Format.LineRoundTrip | ballad.go:91 | splitting the line `status\turl\n` at its first tab gives back the status and the URL, whatever the URL holds |
| Stock.Urls | ballad.go:90 | the URLs of the stock entries, position by position |
| Stock.UrlsAppend | ballad.go:72 | appending an entry appends its URL |
| Stock.RemoveAt | ballad.go:93 | the splice removes exactly entry `i`: one shorter, entries before `i` unchanged, entries after it shifted down by one in the same order |
| Stock.RemoveAtMultiset | ballad.go:93 | the splice removes exactly one copy of entry `i` and nothing else |
| Stock.UrlsRemoveAt | main.go:89 | the URLs after the splice are the old URLs without position `i` |
| Stock.FirstMatch | ballad.go:89-90 | the index of the first entry for a URL: every earlier entry has another URL |
| Stock.FirstMatchFinds | ballad.go:89-101 | an entry for the URL is found exactly when the URL is among the stock's URLs |
| Stock.FindEntry | ballad.go:89-99 | the scanning loop returns the first matching index, or the length when nothing matches |
| Stock.InOrderEmit | ballad.go:86-98 | printing an entry for the next URL to print keeps "printed URLs, then URLs still to print, equals reading order"; both drafts use it |
| Ballad.Edit | ballad.go:126-132 | `???` exactly for an absent response, otherwise a decimal text that reads back as the status code; never contains a tab |
| Ballad.Render | ballad.go:91 | each printed line parses back into the URL and the response it was printed for, failures included |
| Ballad.AllArrivedHeadMatches | ballad.go:89-101 | once no fetch is outstanding, the stock holds an entry for the URL at the head of `printq` |
| Ballad.AccountedSubmit | ballad.go:66-68 | proof helper: reading a URL queues it and adds it to the goroutines not yet started |
| Ballad.AccountedStart | ballad.go:69 | proof helper: a goroutine that runs `waitingq <- true` moves its URL from the unstarted goroutines to the fetching ones |
| Ballad.AccountedArrive | ballad.go:70-72 | a finished fetch moves its URL from the running fetches into the stock, failure or not |
| Ballad.AccountedEmit | ballad.go:91-93 | printing and splicing an entry removes one queued URL and its one stock entry |
| Ballad.TranscriptAppend | ballad.go:91 | proof helper: printing an entry appends its rendered line to the output |
| Ballad.QuitTestMeansAllPrinted | ballad.go:95 | the quit test, counting the goroutines that have not yet appended their entry, passes exactly when input has ended, no fetch is outstanding and every URL read is printed |
| Ballad.Pipeline.constructor | ballad.go:54-60 | everything starts empty |
| Ballad.Pipeline.Submit | ballad.go:64-68 | the URL is queued on `printq` and its fetch goroutine spawned; reading order is recorded |
| Ballad.Pipeline.EndOfInput | ballad.go:81 | sets `eof`, nothing else changes |
| Ballad.Pipeline.Start | ballad.go:69 | one spawned goroutine enters `waitingq` |
| Ballad.Pipeline.Arrive | ballad.go:70-73 | a finished fetch appends exactly one entry for its URL, with the response or its absence, and still holds its `waitingq` slot |
| Ballad.Pipeline.Leave | ballad.go:74 | a goroutine that has appended gives up its `waitingq` slot; nothing else changes |
| Ballad.Pipeline.Emit | ballad.go:90-98 | prints the entry as `Render`, removes exactly it, and quits exactly when input has ended, no fetch is outstanding and every URL read has been printed |
| Ballad.Pipeline.TryEmit | ballad.go:86-101 | prints the first entry for the head of `printq` if there is one, leaves everything unchanged if not, and always prints once no fetch is outstanding |
| Ballad.Pipeline.RunPrinter | ballad.go:84-104 | once every fetch has arrived, prints all queued URLs in reading order, prints exactly the entries the stock held, empties it, and quits exactly when input ended and something was printed |
| Ballad.PrematureQuitTrace | ballad.go:95 | a concrete run in which the quit test as written fires with "http://b" unprinted, while the corrected test does not |
| Ballad.MissedQuitTrace | ballad.go:95 | a concrete run in which every URL is printed but the quit test as written fails, because a goroutine between lines 72 and 74 still holds its `waitingq` slot; the corrected test fires |
| Pool.Edit | main.go:162-165 | the decimal status text, reading back as the status code, without a tab |
| Pool.Render | main.go:87 | each printed line parses back into the URL and the status code; line 112 prints the same text |
| Pool.Worker | main.go:62-72 | a failed fetch is dropped, a response is sent with its status, and a worker never fails |
| Pool.WorkerAsWritten | main.go:62-72 | as written, a worker panics exactly when the fetch failed, and otherwise sends the status it got |
| Pool.FailedFetchPanicsAsWritten | main.go:63-64 | the worker as written and the corrected one differ exactly on a failed fetch |
| Pool.ScanAsWritten | main.go:84-97 | the as-written range loop only extends the printed lines, never rewrites them |
| Pool.StockScanAsWritten | main.go:84-97 | the scan as written prints only entries for the input, no more lines than entries held, counts each line it prints, and quits only when the counters balance after input ended |
| Pool.ShiftedEntrySkippedAsWritten | main.go:89 | with a second entry for the URL right after the first, the scan as written prints one line, skips the shifted entry, keeps it in the stock and does not panic |
| Pool.StaleSlotPrintsTwiceAsWritten | main.go:89 | with entries for x, z and x again, the scan as written prints the second x response twice, from the stale last slot, counts three lines and panics |
| Pool.DuplicateStockPrintsTwiceAsWritten | main.go:84-97 | with two stock entries for one URL, the scan as written prints both, counts two and panics in the splice; the first-match scan prints one and keeps the other |
| Pool.TranscriptAppend | main.go:87 | printing an entry appends its rendered line to the output |
| Pool.AccountedSubmit | main.go:131-134 | proof helper: reading a URL adds it to the unprinted URLs and to the fetches in flight |
| Pool.AccountedDrop | main.go:64-67 | a dropped fetch moves its URL from the workers to the dropped ones |
| Pool.AccountedHold | main.go:121-122 | a response for another URL moves its URL from the workers into the stock |
| Pool.AccountedReceive | main.go:110-113 | the awaited response removes one unprinted URL and its fetch |
| Pool.AccountedEmit | main.go:84-89 | printing a held entry removes one unprinted URL and its one stock entry |
| Pool.BalancedMeansDrained | main.go:90 | when `inCount == outCount` holds, nothing is held or fetching and only dropped URLs are unprinted |
| Pool.InitInv | main.go:45-52 | the empty pipeline satisfies the invariant |
| Pool.SubmitStep | main.go:131-134 | reading a line keeps the invariant |
| Pool.DropStep | main.go:64-67 | dropping a failed fetch keeps the invariant |
| Pool.ReceiveAwaitedStep | main.go:110-113 | printing the awaited response keeps the invariant |
| Pool.ReceiveOtherStep | main.go:121-122 | holding another URL's response keeps the invariant |
| Pool.AwaitStep | main.go:82-109 | taking an input that no entry matches keeps the invariant |
| Pool.EmitHeldStep | main.go:82-89 | printing and splicing a matching entry keeps the invariant |
| Pool.QuitStep | main.go:102-106 | quitting keeps the invariant exactly when `eof && inCount == outCount` holds |
| Pool.QuitWithoutFailuresPrintsAll | main.go:114-118 | when no fetch failed, the program quits only after printing every URL read, in reading order |
| Pool.AwaitedWithoutFetchWasDropped | main.go:102-110 | when the awaited URL has no fetch running, that fetch was dropped and no entry matches it |
| Pool.Pipeline.constructor | main.go:45-52 | everything starts empty, both counters at zero |
| Pool.Pipeline.Submit | main.go:130-135 | `inCount` goes up by one and the URL is queued for a worker and for the result goroutine |
| Pool.Pipeline.EndOfInput | main.go:139 | sets `eof`, nothing else changes |
| Pool.Pipeline.Arrive | main.go:61-72 | a failure decrements `inCount` and prints nothing; a response is handed over only while the result goroutine receives, and is printed if awaited or held otherwise |
| Pool.Pipeline.ReceiveAwaited | main.go:110-113 | the awaited response is printed with its status code, `outCount` goes up by one and the wait ends |
| Pool.Pipeline.ReceiveOther | main.go:117-122 | a response for another URL is appended to `stock` and the wait goes on |
| Pool.Pipeline.TryEmit | main.go:82-107 | takes the next expected URL; prints and removes the first held entry for it, or starts waiting; then quits exactly when `eof && inCount == outCount` |
| Pool.Pipeline.EmitHeld | main.go:84-89 | prints the held entry, increments `outCount` and removes exactly that entry |
| Pool.Pipeline.CheckDone | main.go:102-107 | quits exactly when input has ended and the counters balance; nothing else changes |

## Left out

- Goroutines, channels, `sync.Mutex`, `sync/atomic` and the `deadPool`/`quit`/`quitq` broadcasts. Each goroutine step is one atomic method call. The caller picks the order of the calls.
- Channel capacities (`-j`): the queues are unbounded. This only adds interleavings. So what the model proves about all of its runs holds for the program's runs at the same step granularity, once the program has the corrections listed under "## Findings". The two `Pipeline` classes use the corrected quit test of `ballad.go`, the corrected worker and the first-match scan of `main.go`.
- The `stockq` wake-up tokens of `ballad.go` (lines 75 and 101): a printer with no match waits until a later `TryEmit` call.
- The data races: `eof` is written without synchronisation, and the `ballad.go` printer reads `stock` without the lock. Each modelled step is atomic and reads a consistent state, so a printer scan that overlaps an append is not modelled.
- `fetch`, `httpClient`, `customTransport`, timeouts and the redirect check: a fetch result is the `Option<int>` passed to `Arrive`.
- Pool.Pipeline.Submit: `inCount` and `outCount` are unbounded integers. Go's `int32` counters would wrap after 2^31 lines.
- Standard input scanning, flags, the error messages on standard error, and the read error at the end of input. The output is the sequence `out` of printed lines.
- Closing response bodies. `ballad.go` never closes them; `main.go` defers the close inside the worker loop.
- `ballad_test.go`: it only benchmarks `fetch` against a test server.

## Findings

| source | as written | input that shows it | evidently intended | confidence | as-written member | corrected member |
|---|---|---|---|---|---|---|
| ballad.go:95 | the quit test counts only `len(waitingq)`, which misses a fetch goroutine that was spawned at line 68 but has not reached line 69 | read "http://a" and "http://b", end the input, then let a's fetch start and finish before b's goroutine runs; printing "http://a" makes the test true while "http://b" is unprinted | quit only when no spawned fetch is outstanding and nothing is left to print | not executed | Ballad.PrematureQuitTrace | Ballad.Pipeline.Emit |
| ballad.go:95 | `len(waitingq)` still counts a fetch goroutine that has appended its entry at line 72 but not yet run line 74. If the printer prints that last entry in this window, the test is false, the printer blocks at line 86 and nothing tests again | read only "http://a", end the input, let its fetch append its entry, and let the printer print it before the goroutine runs line 74 | when the last line is printed after the input has ended, quit, whichever goroutines are still between lines 72 and 74 | not executed | Ballad.MissedQuitTrace | Ballad.Pipeline.Emit |
| main.go:63 | `defer res.Body.Close()` evaluates `res.Body` before line 64 checks `res == nil`, so every failed fetch panics | any URL whose fetch fails, so that `fetch` returns a nil response | count the failure down and go on to the next URL | not executed | Pool.FailedFetchPanicsAsWritten | Pool.Worker |
| main.go:84-97 | the `range` over `stock` has no `break` after a match, and it splices the slice in place while iterating. A matching entry that the splice shifts into the slot just scanned is skipped. A matching entry met later is printed and counted as well, and so is the stale copy that each splice leaves in the last slot of the backing array, so one response can be printed twice. Once the loop index has passed the shrunken length, the splice slices beyond it and panics | input "http://y", "http://x", "http://x", where both responses for "http://x" arrive while the program waits for "http://y": the stock then holds two entries for "http://x" | print and remove only the first matching entry | not executed | Pool.DuplicateStockPrintsTwiceAsWritten | Pool.Pipeline.TryEmit |
