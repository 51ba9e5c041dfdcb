/**
 * main.go: a pool of workers fetches the URLs queued on `in2pool` and sends
 * each successful response on the unbuffered `pool2result`; a failed fetch
 * only decrements `inCount` and produces no output. The result goroutine takes
 * the expected URLs from `in2result` in reading order: it prints a matching
 * `stock` entry if there is one, and otherwise receives responses one by one,
 * keeping the non-matching ones in `stock`, until the matching one arrives.
 * Termination is decided by `eof && inCount == outCount`.
 *
 * The goroutines become the methods of `Pipeline`; the caller picks the
 * interleaving by the order of its calls.
 */
module Pool {
  import opened Wrappers
  import opened Format
  import opened Stock

  /**
   * `edit`: the decimal status code. The response must be present: main.go
   * dereferences it unconditionally, and only successful fetches reach it.
   */
  function Edit(res: Option<int>): (r: string)
    requires res.Some?
    ensures ParseDecimal(r) == Some(res.value)
    ensures '\t' !in r
  {
    ItoaRoundTrip(res.value);
    ItoaHasNoTab(res.value);
    Itoa(res.value)
  }

  /**
   * The line printed for a response: `edit(set.res)` at line 87 and
   * `%d` of the status code at line 112 render the same digits. It gives
   * back the URL and the status it was printed for.
   */
  function Render(e: ResponseSet): (r: string)
    requires e.res.Some?
    ensures ParseLine(r).Some?
    ensures ParseLine(r).value.1 == e.url
    ensures ParseDecimal(ParseLine(r).value.0) == e.res
  {
    LineRoundTrip(Edit(e.res), e.url);
    Line(Edit(e.res), e.url)
  }

  /** What a worker does with the outcome of one fetch. */
  datatype WorkerStep = Send(status: int) | Drop | Panic

  /**
   * Lines 62-72 as written: `defer res.Body.Close()` evaluates `res.Body`
   * before line 64 tests `res == nil`, so a failed fetch panics.
   */
  function WorkerAsWritten(res: Option<int>): (r: WorkerStep)
    ensures r == Panic <==> res.None?
    ensures r.Send? ==> Some(r.status) == res
  {
    if res.None? then Panic else Send(res.value)
  }

  /**
   * Lines 62-72 with the body closed only when there is a response: a failed
   * fetch is dropped, a successful one is sent on `pool2result`.
   */
  function Worker(res: Option<int>): (r: WorkerStep)
    ensures r != Panic
    ensures r == Drop <==> res.None?
    ensures r.Send? ==> Some(r.status) == res
  {
    match res
    case None => Drop
    case Some(code) => Send(code)
  }

  /** The two differ exactly on a failed fetch, where only the worker as written panics. */
  lemma FailedFetchPanicsAsWritten(res: Option<int>)
    ensures WorkerAsWritten(res) != Worker(res) <==> res.None?
  {
  }

  /**
   * The state of the range loop of lines 84-97 as written: the backing array
   * of `stock` (`buf`), the current length of the `stock` slice, the entries
   * printed so far, `outCount`, whether the loop quit, whether it panicked.
   */
  datatype RangeScan = RangeScan(buf: seq<ResponseSet>, len: nat, lines: seq<ResponseSet>,
                                 outCount: int, quit: bool, panicked: bool)

  /**
   * Lines 84-97 as written, from iteration `i` of `n`. `range` walks the `n`
   * positions the slice had when the loop began, reading each element afresh
   * from the backing array. There is no `break` after a match, so the loop
   * prints and counts whatever matching element each position holds when it
   * is reached: an entry shifted into the slot just scanned is skipped, and
   * the stale copy left in the last slot is met again. `append(stock[:i], stock[i+1:]...)`
   * shifts the tail left inside the backing array (the last slot keeps its old
   * value) and panics once `i+1` exceeds the current length.
   */
  function ScanAsWritten(input: string, eof: bool, inCount: int, n: nat, i: nat, st: RangeScan): (r: RangeScan)
    requires |st.buf| == n && st.len <= n
    ensures |r.lines| >= |st.lines| && r.lines[..|st.lines|] == st.lines
    ensures forall k :: |st.lines| <= k < |r.lines| ==> r.lines[k].url == input
    ensures i <= n ==> |r.lines| - |st.lines| <= n - i
    ensures r.outCount == st.outCount + (|r.lines| - |st.lines|)
    ensures r.quit ==> st.quit || (eof && inCount == r.outCount)
    decreases n - i
  {
    if i >= n || st.quit || st.panicked then st
    else
      var entry := st.buf[i];
      if entry.url != input then ScanAsWritten(input, eof, inCount, n, i + 1, st)
      else
        var lines := st.lines + [entry];
        var count := st.outCount + 1;
        if i + 1 > st.len then
          st.(lines := lines, outCount := count, panicked := true)
        else
          var buf := st.buf[..i] + st.buf[i + 1..st.len] + st.buf[st.len - 1..];
          var r := ScanAsWritten(input, eof, inCount, n, i + 1,
                                 RangeScan(buf, st.len - 1, lines, count, eof && inCount == count, false));
          assert r.lines[..|lines|] == lines;
          assert lines[..|st.lines|] == st.lines;
          r
  }

  /**
   * The whole stock scan of lines 84-97 as written: it prints only entries
   * for `input`, no more lines than the stock held entries, counts every
   * line it prints, and quits only on the balance test of line 90.
   */
  function StockScanAsWritten(stock: seq<ResponseSet>, input: string, eof: bool,
                              inCount: int, outCount: int): (r: RangeScan)
    ensures forall k :: 0 <= k < |r.lines| ==> r.lines[k].url == input
    ensures |r.lines| <= |stock|
    ensures r.outCount == outCount + |r.lines|
    ensures r.quit ==> eof && inCount == r.outCount
  {
    ScanAsWritten(input, eof, inCount, |stock|, 0, RangeScan(stock, |stock|, [], outCount, false, false))
  }

  /**
   * Two held responses for the same URL: as written, one expected input
   * prints two lines, counts two, and then the splice panics; the first-match
   * scan prints one line and keeps the other entry.
   */
  lemma DuplicateStockPrintsTwiceAsWritten()
    ensures
      var a := ResponseSet(Some(200), "http://x");
      var b := ResponseSet(Some(404), "http://x");
      var r := StockScanAsWritten([a, b], "http://x", false, 2, 0);
      r.lines == [a, b] && r.outCount == 2 && r.panicked &&
      FirstMatch([a, b], "http://x") == 0 && RemoveAt([a, b], 0) == [b]
  {
  }

  /**
   * A second entry for the URL right after the first: as written, the splice
   * shifts it into the slot just scanned, so the scan skips it and keeps it in
   * the stock, without a panic.
   */
  lemma ShiftedEntrySkippedAsWritten()
    ensures
      var a := ResponseSet(Some(200), "http://x");
      var b := ResponseSet(Some(404), "http://x");
      var c := ResponseSet(Some(200), "http://z");
      var r := StockScanAsWritten([a, b, c], "http://x", false, 3, 0);
      r.lines == [a] && r.outCount == 1 && !r.panicked && r.buf[..r.len] == [b, c]
  {
  }

  /**
   * A second entry for the URL after another URL's entry: as written, the
   * first splice shifts it to position 1 while its stale copy stays in the
   * last slot, so the scan prints it at position 1, prints it again at
   * position 2, and then the splice panics.
   */
  lemma StaleSlotPrintsTwiceAsWritten()
    ensures
      var a := ResponseSet(Some(200), "http://x");
      var z := ResponseSet(Some(200), "http://z");
      var b := ResponseSet(Some(404), "http://x");
      var r := StockScanAsWritten([a, z, b], "http://x", false, 3, 0);
      r.lines == [a, b, b] && r.outCount == 3 && r.panicked
  {
  }

  /** `[u]` while the result goroutine holds the input `u`, empty otherwise. */
  function Held(input: Option<string>): seq<string> {
    if input.Some? then [input.value] else []
  }

  /** Every held response is a successful one. */
  ghost predicate AllResponded(s: seq<ResponseSet>) {
    forall i :: 0 <= i < |s| ==> s[i].res.Some?
  }

  /** `out` is what the result goroutine writes for `printed`, line by line. */
  ghost predicate IsTranscript(out: seq<string>, printed: seq<ResponseSet>) {
    |out| == |printed| && AllResponded(printed) &&
    forall i :: 0 <= i < |out| ==> out[i] == Render(printed[i])
  }

  lemma TranscriptAppend(out: seq<string>, printed: seq<ResponseSet>, e: ResponseSet)
    requires IsTranscript(out, printed) && e.res.Some?
    ensures IsTranscript(out + [Render(e)], printed + [e])
  {
  }

  /**
   * Every URL still to print is in exactly one place: its response is held in
   * the stock, its fetch is in flight, or its fetch failed and was dropped.
   */
  ghost predicate Accounted(unprinted: seq<string>, stock: seq<ResponseSet>,
                            inFlight: seq<string>, dropped: seq<string>) {
    multiset(unprinted) == multiset(Urls(stock)) + multiset(inFlight) + multiset(dropped)
  }

  lemma AccountedSubmit(unprinted: seq<string>, stock: seq<ResponseSet>,
                        inFlight: seq<string>, dropped: seq<string>, url: string)
    requires Accounted(unprinted, stock, inFlight, dropped)
    ensures Accounted(unprinted + [url], stock, inFlight + [url], dropped)
  {
  }

  lemma AccountedDrop(unprinted: seq<string>, stock: seq<ResponseSet>,
                      inFlight: seq<string>, dropped: seq<string>, k: nat)
    requires Accounted(unprinted, stock, inFlight, dropped) && k < |inFlight|
    ensures Accounted(unprinted, stock, RemoveAt(inFlight, k), dropped + [inFlight[k]])
  {
    RemoveAtMultiset(inFlight, k);
    assert multiset(dropped + [inFlight[k]]) == multiset(dropped) + multiset{inFlight[k]};
  }

  lemma AccountedHold(unprinted: seq<string>, stock: seq<ResponseSet>,
                      inFlight: seq<string>, dropped: seq<string>, k: nat, e: ResponseSet)
    requires Accounted(unprinted, stock, inFlight, dropped) && k < |inFlight| && e.url == inFlight[k]
    ensures Accounted(unprinted, stock + [e], RemoveAt(inFlight, k), dropped)
  {
    RemoveAtMultiset(inFlight, k);
    UrlsAppend(stock, [e]);
    assert multiset(Urls(stock + [e])) == multiset(Urls(stock)) + multiset{e.url};
  }

  lemma AccountedReceive(unprinted: seq<string>, stock: seq<ResponseSet>,
                         inFlight: seq<string>, dropped: seq<string>, k: nat)
    requires Accounted(unprinted, stock, inFlight, dropped) && k < |inFlight|
    requires unprinted != [] && unprinted[0] == inFlight[k]
    ensures Accounted(unprinted[1..], stock, RemoveAt(inFlight, k), dropped)
  {
    RemoveAtMultiset(inFlight, k);
    assert unprinted == [unprinted[0]] + unprinted[1..];
    var one := multiset{unprinted[0]};
    var rest := multiset(Urls(stock)) + multiset(RemoveAt(inFlight, k)) + multiset(dropped);
    assert multiset(unprinted) == multiset(unprinted[1..]) + one;
    assert multiset(unprinted[1..]) + one == rest + one;
    MultisetCancel(multiset(unprinted[1..]), rest, one);
  }

  lemma AccountedEmit(unprinted: seq<string>, stock: seq<ResponseSet>,
                      inFlight: seq<string>, dropped: seq<string>, i: nat)
    requires Accounted(unprinted, stock, inFlight, dropped)
    requires unprinted != [] && i < |stock| && stock[i].url == unprinted[0]
    ensures Accounted(unprinted[1..], RemoveAt(stock, i), inFlight, dropped)
  {
    UrlsRemoveAt(stock, i);
    assert unprinted == [unprinted[0]] + unprinted[1..];
    var one := multiset{unprinted[0]};
    var rest := multiset(Urls(RemoveAt(stock, i))) + multiset(inFlight) + multiset(dropped);
    assert multiset(unprinted) == multiset(unprinted[1..]) + one;
    assert multiset(Urls(stock)) == multiset(Urls(RemoveAt(stock, i))) + one;
    assert multiset(unprinted[1..]) + one == rest + one;
    MultisetCancel(multiset(unprinted[1..]), rest, one);
  }

  /**
   * When the counters balance, as many URLs are still unprinted as fetches
   * were dropped: then nothing is held or in flight, and the unprinted URLs
   * are exactly the dropped ones.
   */
  lemma BalancedMeansDrained(unprinted: seq<string>, stock: seq<ResponseSet>,
                             inFlight: seq<string>, dropped: seq<string>)
    requires Accounted(unprinted, stock, inFlight, dropped)
    requires |unprinted| == |dropped|
    ensures stock == [] && inFlight == []
    ensures multiset(unprinted) == multiset(dropped)
  {
    assert |multiset(unprinted)| == |Urls(stock)| + |inFlight| + |dropped|;
    assert |Urls(stock)| == 0;
  }

  /** `inCount` counts the lines read minus the dropped fetches; `outCount` the lines printed. */
  ghost predicate Counted(inCount: int, outCount: int, submitted: seq<string>,
                          dropped: seq<string>, printed: seq<ResponseSet>) {
    inCount == |submitted| - |dropped| && outCount == |printed|
  }

  /** While the result goroutine waits on `pool2result`, no held response is the one it waits for. */
  ghost predicate Awaiting(input: Option<string>, quit: bool, stock: seq<ResponseSet>) {
    input.Some? && !quit ==> input.value !in Urls(stock)
  }

  /** The program quits only when every URL was printed or dropped. */
  ghost predicate Finished(quit: bool, eof: bool, inCount: int, outCount: int, stock: seq<ResponseSet>,
                           inFlight: seq<string>, unprinted: seq<string>, dropped: seq<string>) {
    quit ==> eof && inCount == outCount && stock == [] && inFlight == [] &&
             multiset(unprinted) == multiset(dropped)
  }

  /** The values of a `Pipeline`'s fields, ghost ones included. */
  datatype State = State(inCount: int, outCount: int, eof: bool, quit: bool,
                         inFlight: seq<string>, in2result: seq<string>, input: Option<string>,
                         stock: seq<ResponseSet>, out: seq<string>,
                         submitted: seq<string>, dropped: seq<string>, printed: seq<ResponseSet>)

  /** The URLs not printed yet, in the order they will be asked for. */
  function Unprinted(s: State): seq<string> {
    Held(s.input) + s.in2result
  }

  /** The invariant of the pipeline, kept by every step of every goroutine. */
  ghost predicate Inv(s: State) {
    Counted(s.inCount, s.outCount, s.submitted, s.dropped, s.printed) &&
    IsTranscript(s.out, s.printed) &&
    AllResponded(s.stock) &&
    InOrder(s.printed, Unprinted(s), s.submitted) &&
    Accounted(Unprinted(s), s.stock, s.inFlight, s.dropped) &&
    Awaiting(s.input, s.quit, s.stock) &&
    Finished(s.quit, s.eof, s.inCount, s.outCount, s.stock, s.inFlight, Unprinted(s), s.dropped)
  }

  lemma InitInv()
    ensures Inv(State(0, 0, false, false, [], [], None, [], [], [], [], []))
  {
  }

  lemma SubmitStep(s: State, url: string, t: State)
    requires Inv(s) && !s.eof && !s.quit
    requires t == s.(inCount := s.inCount + 1, inFlight := s.inFlight + [url],
                     in2result := s.in2result + [url], submitted := s.submitted + [url])
    ensures Inv(t)
  {
    var u := Unprinted(s);
    assert Held(s.input) + (s.in2result + [url]) == u + [url];
    AccountedSubmit(u, s.stock, s.inFlight, s.dropped, url);
    InOrderSubmit(s.printed, u, s.submitted, url);
  }

  lemma DropStep(s: State, k: nat, t: State)
    requires Inv(s) && !s.quit && k < |s.inFlight|
    requires t == s.(inCount := s.inCount - 1, inFlight := RemoveAt(s.inFlight, k),
                     dropped := s.dropped + [s.inFlight[k]])
    ensures Inv(t)
  {
    AccountedDrop(Unprinted(s), s.stock, s.inFlight, s.dropped, k);
  }

  lemma ReceiveAwaitedStep(s: State, k: nat, status: int, t: State)
    requires Inv(s) && !s.quit && k < |s.inFlight| && s.input == Some(s.inFlight[k])
    requires
      var e := ResponseSet(Some(status), s.inFlight[k]);
      t == s.(out := s.out + [Render(e)], printed := s.printed + [e], outCount := s.outCount + 1,
              inFlight := RemoveAt(s.inFlight, k), input := None)
    ensures Inv(t)
  {
    var e := ResponseSet(Some(status), s.inFlight[k]);
    var u := Unprinted(s);
    assert u == [e.url] + s.in2result;
    AccountedReceive(u, s.stock, s.inFlight, s.dropped, k);
    InOrderEmit(s.printed, u, s.submitted, e);
    TranscriptAppend(s.out, s.printed, e);
    assert Held(None) + s.in2result == u[1..];
  }

  lemma ReceiveOtherStep(s: State, k: nat, status: int, t: State)
    requires Inv(s) && !s.quit && k < |s.inFlight| && s.input.Some? && s.input.value != s.inFlight[k]
    requires t == s.(stock := s.stock + [ResponseSet(Some(status), s.inFlight[k])],
                     inFlight := RemoveAt(s.inFlight, k))
    ensures Inv(t)
  {
    var e := ResponseSet(Some(status), s.inFlight[k]);
    AccountedHold(Unprinted(s), s.stock, s.inFlight, s.dropped, k, e);
    UrlsAppend(s.stock, [e]);
  }

  lemma AwaitStep(s: State, t: State)
    requires Inv(s) && !s.quit && s.input.None? && s.in2result != []
    requires s.in2result[0] !in Urls(s.stock)
    requires t == s.(input := Some(s.in2result[0]), in2result := s.in2result[1..])
    ensures Inv(t)
  {
    assert Held(Some(s.in2result[0])) + s.in2result[1..] == Unprinted(s);
  }

  lemma EmitHeldStep(s: State, i: nat, t: State)
    requires Inv(s) && !s.quit && s.input.None? && s.in2result != []
    requires i < |s.stock| && s.stock[i].url == s.in2result[0]
    requires t == s.(out := s.out + [Render(s.stock[i])], printed := s.printed + [s.stock[i]],
                     outCount := s.outCount + 1, stock := RemoveAt(s.stock, i), in2result := s.in2result[1..])
    ensures Inv(t)
  {
    var e := s.stock[i];
    var u := s.in2result;
    assert Unprinted(s) == u;
    AccountedEmit(u, s.stock, s.inFlight, s.dropped, i);
    InOrderEmit(s.printed, u, s.submitted, e);
    TranscriptAppend(s.out, s.printed, e);
    assert Held(None) + s.in2result[1..] == u[1..];
  }

  /** Quitting keeps the invariant exactly when input is exhausted and the counters balance. */
  lemma QuitStep(s: State, t: State)
    requires Inv(s) && !s.quit && t == s.(quit := true)
    ensures Inv(t) <==> s.eof && s.inCount == s.outCount
  {
    if s.eof && s.inCount == s.outCount {
      BalancedMeansDrained(Unprinted(s), s.stock, s.inFlight, s.dropped);
    }
  }

  /** When no fetch failed, the program quits only after printing every URL, in reading order. */
  lemma QuitWithoutFailuresPrintsAll(s: State)
    requires Inv(s) && s.quit && s.dropped == []
    ensures Urls(s.printed) == s.submitted
    ensures |s.out| == |s.submitted|
  {
  }

  /**
   * Once the result goroutine takes a URL whose fetch is no longer in
   * flight, that fetch was dropped and no held response matches it. For a
   * URL that occurs once in the input no response will arrive for it either,
   * so only the end test of line 102, made at that moment, can release the
   * goroutine: it passes when input has ended and every URL after it has
   * failed too. A later line with the same URL can still release it.
   */
  lemma AwaitedWithoutFetchWasDropped(s: State)
    requires Inv(s) && !s.quit && s.input.Some? && s.input.value !in s.inFlight
    ensures s.input.value in s.dropped
    ensures s.input.value !in Urls(s.stock)
  {
    var u := s.input.value;
    assert Unprinted(s)[0] == u;
    assert multiset(Unprinted(s))[u] > 0;
    assert multiset(Urls(s.stock))[u] == 0;
    assert multiset(s.inFlight)[u] == 0;
  }

  class Pipeline {
    /** Lines read (line 131) minus fetches that failed (line 66). */
    var inCount: int
    /** Lines printed (lines 88 and 113). */
    var outCount: int
    var eof: bool
    /** The result goroutine has sent on `quit`; the program has ended. */
    var quit: bool
    /** URLs sent on `in2pool` whose fetch has not finished. */
    var inFlight: seq<string>
    /** URLs sent on `in2result` and not yet taken by the result goroutine. */
    var in2result: seq<string>
    /** The `input` the result goroutine has taken and waits for, if any. */
    var input: Option<string>
    var stock: seq<ResponseSet>
    /** The lines written to standard output. */
    var out: seq<string>
    /** Every URL the scanner has read, in order. */
    ghost var submitted: seq<string>
    /** The URLs whose fetch failed and was dropped. */
    ghost var dropped: seq<string>
    /** The responses printed so far, in printing order. */
    ghost var printed: seq<ResponseSet>

    ghost function Snapshot(): State
      reads this
    {
      State(inCount, outCount, eof, quit, inFlight, in2result, input, stock, out, submitted, dropped, printed)
    }

    ghost predicate Valid()
      reads this
    {
      Inv(Snapshot())
    }

    constructor ()
      ensures Valid()
      ensures inCount == 0 && outCount == 0 && !eof && !quit
      ensures inFlight == [] && in2result == [] && input == None && stock == [] && out == []
      ensures submitted == [] && dropped == [] && printed == []
    {
      InitInv();
      inCount, outCount, eof, quit := 0, 0, false, false;
      inFlight, in2result, input, stock, out := [], [], None, [], [];
      submitted, dropped, printed := [], [], [];
    }

    /** The scanner reads `url` (lines 131-134): counts it and queues it for a worker and for the printer. */
    method Submit(url: string)
      requires Valid() && !eof && !quit
      modifies this
      ensures inCount == old(inCount) + 1
      ensures inFlight == old(inFlight) + [url] && in2result == old(in2result) + [url]
      ensures submitted == old(submitted) + [url]
      ensures outCount == old(outCount) && input == old(input) && stock == old(stock)
      ensures out == old(out) && eof == old(eof) && quit == old(quit)
      ensures dropped == old(dropped) && printed == old(printed)
      ensures Valid()
    {
      ghost var s := Snapshot();
      inCount, inFlight, in2result := inCount + 1, inFlight + [url], in2result + [url];
      submitted := submitted + [url];
      SubmitStep(s, url, Snapshot());
    }

    /** The scanner has reached the end of its input (line 139). */
    method EndOfInput()
      requires Valid() && !quit
      modifies this
      ensures eof
      ensures inCount == old(inCount) && outCount == old(outCount) && quit == old(quit)
      ensures inFlight == old(inFlight) && in2result == old(in2result) && input == old(input)
      ensures stock == old(stock) && out == old(out)
      ensures submitted == old(submitted) && dropped == old(dropped) && printed == old(printed)
      ensures Valid()
    {
      eof := true;
    }

    /**
     * The fetch of in-flight URL `k` finishes with `res` (lines 62-72). A
     * failure is dropped: `inCount` goes down and nothing is printed. A
     * response is handed over on the unbuffered `pool2result` only while the
     * result goroutine is receiving (lines 109-123); otherwise the worker
     * waits and nothing changes (`delivered` is false).
     */
    method Arrive(k: nat, res: Option<int>) returns (delivered: bool)
      requires Valid() && !quit && k < |inFlight|
      modifies this
      ensures delivered == (res.None? || old(input).Some?)
      ensures !delivered ==>
        inCount == old(inCount) && inFlight == old(inFlight) && dropped == old(dropped) &&
        input == old(input) && stock == old(stock) && out == old(out) &&
        outCount == old(outCount) && printed == old(printed) && quit == old(quit)
      ensures delivered ==> inFlight == RemoveAt(old(inFlight), k)
      ensures res.None? ==>
        inCount == old(inCount) - 1 && dropped == old(dropped) + [old(inFlight)[k]] &&
        input == old(input) && stock == old(stock) && out == old(out) &&
        outCount == old(outCount) && printed == old(printed) && quit == old(quit)
      ensures res.Some? && old(input).Some? && old(inFlight)[k] == old(input).value ==>
        var e := ResponseSet(res, old(inFlight)[k]);
        out == old(out) + [Render(e)] && printed == old(printed) + [e] &&
        outCount == old(outCount) + 1 && input == None && stock == old(stock) &&
        quit == (eof && inCount == outCount)
      ensures res.Some? && old(input).Some? && old(inFlight)[k] != old(input).value ==>
        stock == old(stock) + [ResponseSet(res, old(inFlight)[k])] &&
        out == old(out) && printed == old(printed) &&
        outCount == old(outCount) && input == old(input) && quit == old(quit)
      ensures res.Some? ==> inCount == old(inCount) && dropped == old(dropped)
      ensures in2result == old(in2result) && eof == old(eof) && submitted == old(submitted)
      ensures Valid()
    {
      match Worker(res)
      case Drop =>
        ghost var s := Snapshot();
        dropped := dropped + [inFlight[k]];
        inFlight, inCount := RemoveAt(inFlight, k), inCount - 1;
        DropStep(s, k, Snapshot());
        delivered := true;
      case Send(code) =>
        if input.None? {
          delivered := false;
        } else if inFlight[k] == input.value {
          ReceiveAwaited(k, code);
          CheckDone();
          delivered := true;
        } else {
          ReceiveOther(k, code);
          delivered := true;
        }
    }

    /**
     * Lines 110-113: the response received is the awaited input. It is
     * printed and counted, and the wait ends. A sub-step of `Arrive`.
     */
    method ReceiveAwaited(k: nat, status: int)
      requires Valid() && !quit && k < |inFlight| && input == Some(inFlight[k])
      modifies this
      ensures inFlight == RemoveAt(old(inFlight), k)
      ensures out == old(out) + [Render(ResponseSet(Some(status), old(inFlight)[k]))]
      ensures printed == old(printed) + [ResponseSet(Some(status), old(inFlight)[k])]
      ensures outCount == old(outCount) + 1 && input == None && stock == old(stock)
      ensures quit == old(quit)
      ensures inCount == old(inCount) && in2result == old(in2result) && eof == old(eof)
      ensures submitted == old(submitted) && dropped == old(dropped)
      ensures Valid()
    {
      ghost var s := Snapshot();
      var e := ResponseSet(Some(status), inFlight[k]);
      out, printed, outCount := out + [Render(e)], printed + [e], outCount + 1;
      inFlight, input := RemoveAt(inFlight, k), None;
      ReceiveAwaitedStep(s, k, status, Snapshot());
    }

    /**
     * Lines 117-122: the response received is for another URL. It is kept in
     * `stock` and the wait goes on. A sub-step of `Arrive`.
     */
    method ReceiveOther(k: nat, status: int)
      requires Valid() && !quit && k < |inFlight| && input.Some? && input.value != inFlight[k]
      modifies this
      ensures inFlight == RemoveAt(old(inFlight), k)
      ensures stock == old(stock) + [ResponseSet(Some(status), old(inFlight)[k])]
      ensures out == old(out) && printed == old(printed) && outCount == old(outCount)
      ensures input == old(input) && quit == old(quit)
      ensures inCount == old(inCount) && in2result == old(in2result) && eof == old(eof)
      ensures submitted == old(submitted) && dropped == old(dropped)
      ensures Valid()
    {
      ghost var s := Snapshot();
      stock, inFlight := stock + [ResponseSet(Some(status), inFlight[k])], RemoveAt(inFlight, k);
      ReceiveOtherStep(s, k, status, Snapshot());
    }

    /**
     * Lines 82-107: the result goroutine takes the next expected URL from
     * `in2result`. If a held response matches, the first such one is printed
     * and removed and the goroutine goes back for the next URL; if not, it
     * starts waiting on `pool2result`. Either way it then checks for the end.
     * While it is already waiting, or nothing is queued, nothing changes.
     */
    method TryEmit() returns (taken: bool)
      requires Valid() && !quit
      modifies this
      ensures taken == (old(input).None? && old(in2result) != [])
      ensures !taken ==>
        in2result == old(in2result) && input == old(input) && stock == old(stock) &&
        out == old(out) && printed == old(printed) && outCount == old(outCount) && quit == old(quit)
      ensures taken ==>
        var url := old(in2result)[0];
        var i := FirstMatch(old(stock), url);
        in2result == old(in2result)[1..] &&
        quit == (eof && inCount == outCount) &&
        if i < |old(stock)| then
          printed == old(printed) + [old(stock)[i]] &&
          out == old(out) + [Render(old(stock)[i])] &&
          stock == RemoveAt(old(stock), i) &&
          outCount == old(outCount) + 1 && input == None
        else
          printed == old(printed) && out == old(out) && stock == old(stock) &&
          outCount == old(outCount) && input == Some(url)
      ensures inCount == old(inCount) && inFlight == old(inFlight) && eof == old(eof)
      ensures submitted == old(submitted) && dropped == old(dropped)
      ensures Valid()
    {
      if input.Some? || in2result == [] {
        return false;
      }
      var url := in2result[0];
      FirstMatchFinds(stock, url);
      var i := FindEntry(stock, url);
      if i < |stock| {
        EmitHeld(i);
      } else {
        ghost var s := Snapshot();
        input, in2result := Some(url), in2result[1..];
        AwaitStep(s, Snapshot());
      }
      CheckDone();
      taken := true;
    }

    /**
     * Lines 82-93 when held response `i` matches the next expected URL: take
     * the URL, print the response, count it and splice it out of `stock`.
     * A sub-step of `TryEmit`, which picks the first match.
     */
    method EmitHeld(i: nat)
      requires Valid() && !quit && input.None? && in2result != []
      requires i < |stock| && stock[i].url == in2result[0]
      modifies this
      ensures printed == old(printed) + [old(stock)[i]]
      ensures out == old(out) + [Render(old(stock)[i])]
      ensures stock == RemoveAt(old(stock), i)
      ensures in2result == old(in2result)[1..]
      ensures outCount == old(outCount) + 1 && input == None && quit == old(quit)
      ensures inCount == old(inCount) && inFlight == old(inFlight)
      ensures eof == old(eof) && submitted == old(submitted) && dropped == old(dropped)
      ensures Valid()
    {
      ghost var s := Snapshot();
      var e := stock[i];
      out, printed, outCount := out + [Render(e)], printed + [e], outCount + 1;
      stock, in2result := RemoveAt(stock, i), in2result[1..];
      EmitHeldStep(s, i, Snapshot());
    }

    /**
     * Lines 90, 102 and 114: once input is exhausted and every counted line
     * is printed, the result goroutine sends on `quit` and the program ends.
     * A sub-step of `TryEmit` and `Arrive`, which call it after their step.
     */
    method CheckDone()
      requires Valid() && !quit
      modifies this
      ensures quit == (eof && inCount == outCount)
      ensures inCount == old(inCount) && outCount == old(outCount) && eof == old(eof)
      ensures inFlight == old(inFlight) && in2result == old(in2result) && input == old(input)
      ensures stock == old(stock) && out == old(out)
      ensures submitted == old(submitted) && dropped == old(dropped) && printed == old(printed)
      ensures Valid()
    {
      ghost var s := Snapshot();
      if eof && inCount == outCount {
        quit := true;
        QuitStep(s, Snapshot());
      }
    }
  }
}
