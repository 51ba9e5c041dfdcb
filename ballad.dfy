/**
 * ballad.go: the scanner goroutine reads URLs, queues each on `printq` and
 * spawns one fetch goroutine per URL; every fetch goroutine appends one entry
 * to `stock`, failed or not; the printer takes URLs from `printq` in order,
 * scans `stock` for the first entry with that URL, prints and removes it, and
 * signals `quitq` once nothing is left to wait for.
 *
 * The goroutines become the methods of `Pipeline`; the caller picks the
 * interleaving by the order of its calls.
 */
module Ballad {
  import opened Wrappers
  import opened Format
  import opened Stock

  /** `edit`: "???" for a failed fetch, otherwise the decimal status code. */
  function Edit(res: Option<int>): (r: string)
    ensures (r == "???") == res.None?
    ensures ReadStatus(r) == res
    ensures '\t' !in r
  {
    match res
    case None => "???"
    case Some(code) =>
      ItoaRoundTrip(code);
      ItoaHasNoTab(code);
      Itoa(code)
  }

  /** Reads a status text back: the inverse of `Edit`. */
  function ReadStatus(text: string): Option<int> {
    if text == "???" then None else ParseDecimal(text)
  }

  /**
   * The line the printer writes for one stock entry (line 91); it gives back
   * the URL and the response it was printed for.
   */
  function Render(e: ResponseSet): (r: string)
    ensures ParseLine(r).Some?
    ensures ParseLine(r).value.1 == e.url
    ensures ReadStatus(ParseLine(r).value.0) == e.res
  {
    LineRoundTrip(Edit(e.res), e.url);
    Line(Edit(e.res), e.url)
  }

  /**
   * The printer's quit test (line 95) over the number of fetch goroutines it
   * counts as still running.
   */
  function QuitTest(eof: bool, running: nat, stockLen: nat): bool {
    eof && running == 0 && stockLen == 0
  }

  /**
   * With no fetch outstanding, every URL still queued for printing has an
   * entry waiting in the stock, so the printer finds one at once.
   */
  lemma AllArrivedHeadMatches(printq: seq<string>, stock: seq<ResponseSet>)
    requires multiset(printq) == multiset(Urls(stock))
    requires printq != []
    ensures FirstMatch(stock, printq[0]) < |stock|
  {
    assert printq[0] in multiset(printq);
    assert printq[0] in Urls(stock);
    FirstMatchFinds(stock, printq[0]);
  }

  /**
   * Every URL queued for printing is in exactly one place: its goroutine has
   * not started, is fetching, or has left its entry in the stock.
   */
  ghost predicate Accounted(printq: seq<string>, unstarted: seq<string>, fetching: seq<string>,
                            stock: seq<ResponseSet>) {
    multiset(printq) == multiset(unstarted) + multiset(fetching) + multiset(Urls(stock))
  }

  lemma AccountedSubmit(printq: seq<string>, unstarted: seq<string>, fetching: seq<string>,
                        stock: seq<ResponseSet>, url: string)
    requires Accounted(printq, unstarted, fetching, stock)
    ensures Accounted(printq + [url], unstarted + [url], fetching, stock)
  {
  }

  lemma AccountedStart(printq: seq<string>, unstarted: seq<string>, fetching: seq<string>,
                       stock: seq<ResponseSet>, k: nat)
    requires Accounted(printq, unstarted, fetching, stock) && k < |unstarted|
    ensures Accounted(printq, RemoveAt(unstarted, k), fetching + [unstarted[k]], stock)
  {
    RemoveAtMultiset(unstarted, k);
    assert multiset(fetching + [unstarted[k]]) == multiset(fetching) + multiset{unstarted[k]};
  }

  lemma AccountedArrive(printq: seq<string>, unstarted: seq<string>, fetching: seq<string>,
                        stock: seq<ResponseSet>, k: nat, res: Option<int>)
    requires Accounted(printq, unstarted, fetching, stock) && k < |fetching|
    ensures Accounted(printq, unstarted, RemoveAt(fetching, k), stock + [ResponseSet(res, fetching[k])])
  {
    RemoveAtMultiset(fetching, k);
    UrlsAppend(stock, [ResponseSet(res, fetching[k])]);
    assert multiset(Urls(stock + [ResponseSet(res, fetching[k])])) == multiset(Urls(stock)) + multiset{fetching[k]};
  }

  lemma AccountedEmit(printq: seq<string>, unstarted: seq<string>, fetching: seq<string>,
                      stock: seq<ResponseSet>, i: nat)
    requires Accounted(printq, unstarted, fetching, stock)
    requires printq != [] && i < |stock| && stock[i].url == printq[0]
    ensures Accounted(printq[1..], unstarted, fetching, RemoveAt(stock, i))
  {
    UrlsRemoveAt(stock, i);
    assert printq == [printq[0]] + printq[1..];
    var one := multiset{printq[0]};
    var rest := multiset(unstarted) + multiset(fetching) + multiset(Urls(RemoveAt(stock, i)));
    assert multiset(printq) == multiset(printq[1..]) + one;
    assert multiset(Urls(stock)) == multiset(Urls(RemoveAt(stock, i))) + one;
    assert multiset(printq[1..]) + one == rest + one;
    MultisetCancel(multiset(printq[1..]), rest, one);
  }

  /**
   * The quit test of line 95, counting the goroutines that have not yet
   * appended their entry, passes exactly when input has ended, no fetch is
   * outstanding and every URL read has been printed.
   */
  lemma QuitTestMeansAllPrinted(eof: bool, printq: seq<string>, unstarted: seq<string>,
                                fetching: seq<string>, stock: seq<ResponseSet>)
    requires Accounted(printq, unstarted, fetching, stock)
    ensures QuitTest(eof, |unstarted| + |fetching|, |stock|) <==>
            eof && unstarted == [] && fetching == [] && printq == []
  {
    if unstarted == [] && fetching == [] {
      assert |multiset(printq)| == |multiset(Urls(stock))|;
    }
  }

  /** `out` is what the printer writes for `printed`, line by line. */
  ghost predicate IsTranscript(out: seq<string>, printed: seq<ResponseSet>) {
    |out| == |printed| && forall i :: 0 <= i < |out| ==> out[i] == Render(printed[i])
  }

  lemma TranscriptAppend(out: seq<string>, printed: seq<ResponseSet>, e: ResponseSet)
    requires IsTranscript(out, printed)
    ensures IsTranscript(out + [Render(e)], printed + [e])
  {
  }

  class Pipeline {
    /** URLs read by the scanner and not yet printed, in reading order; the head is the printer's `urlStr`. */
    var printq: seq<string>
    /** Fetch goroutines spawned (line 68) that have not yet sent on `waitingq` (line 69). */
    var unstarted: seq<string>
    /** Fetch goroutines between `waitingq <- true` (line 69) and their append to `stock` (line 72). */
    var fetching: seq<string>
    /**
     * Fetch goroutines that have appended their entry (line 72) but not yet
     * run `<-waitingq` (line 74). `len(waitingq)` is `|fetching| + |leaving|`.
     */
    var leaving: seq<string>
    var stock: seq<ResponseSet>
    var eof: bool
    /** The printer has sent on `quitq`; the program has ended. */
    var quit: bool
    /** The lines written to standard output. */
    var out: seq<string>
    /** Every URL the scanner has read, in order. */
    ghost var submitted: seq<string>
    /** The stock entries printed so far, in printing order. */
    ghost var printed: seq<ResponseSet>

    ghost predicate Valid()
      reads this
    {
      // printing follows reading order: what is printed and what is queued make up the input
      InOrder(printed, printq, submitted) &&
      // every queued URL is accounted for exactly once: not started, being fetched, or in stock
      Accounted(printq, unstarted, fetching, stock) &&
      IsTranscript(out, printed) &&
      // the program never quits while a URL is still waiting to be printed
      (quit ==> eof && printq == [])
    }

    constructor ()
      ensures Valid()
      ensures printq == [] && unstarted == [] && fetching == [] && leaving == [] && stock == []
      ensures !eof && !quit && out == [] && submitted == [] && printed == []
    {
      printq, unstarted, fetching, leaving, stock := [], [], [], [], [];
      eof, quit, out := false, false, [];
      submitted, printed := [], [];
    }

    /** The scanner reads `url`: queues it on `printq` and spawns its fetch goroutine (lines 65-68). */
    method Submit(url: string)
      requires Valid() && !eof && !quit
      modifies this
      ensures Valid()
      ensures printq == old(printq) + [url] && unstarted == old(unstarted) + [url]
      ensures submitted == old(submitted) + [url]
      ensures fetching == old(fetching) && leaving == old(leaving) && stock == old(stock)
      ensures out == old(out) && printed == old(printed) && eof == old(eof) && quit == old(quit)
    {
      AccountedSubmit(printq, unstarted, fetching, stock, url);
      InOrderSubmit(printed, printq, submitted, url);
      printq := printq + [url];
      unstarted := unstarted + [url];
      submitted := submitted + [url];
    }

    /** The scanner has reached the end of its input (line 81). */
    method EndOfInput()
      requires Valid() && !quit
      modifies this
      ensures Valid() && eof
      ensures printq == old(printq) && unstarted == old(unstarted) && fetching == old(fetching)
      ensures leaving == old(leaving) && stock == old(stock) && out == old(out) && quit == old(quit)
      ensures submitted == old(submitted) && printed == old(printed)
    {
      eof := true;
    }

    /** Fetch goroutine `k` runs `waitingq <- true` (line 69). */
    method Start(k: nat)
      requires Valid() && !quit && k < |unstarted|
      modifies this
      ensures Valid()
      ensures unstarted == RemoveAt(old(unstarted), k)
      ensures fetching == old(fetching) + [old(unstarted)[k]]
      ensures leaving == old(leaving) && printq == old(printq) && stock == old(stock) && out == old(out)
      ensures eof == old(eof) && quit == old(quit)
      ensures submitted == old(submitted) && printed == old(printed)
    {
      AccountedStart(printq, unstarted, fetching, stock, k);
      fetching := fetching + [unstarted[k]];
      unstarted := RemoveAt(unstarted, k);
    }

    /**
     * Running fetch `k` returns `res` (absent on failure) and appends exactly
     * one entry for its URL to `stock`, whatever the outcome (lines 70-73).
     * The goroutine still holds its slot in `waitingq`.
     */
    method Arrive(k: nat, res: Option<int>)
      requires Valid() && !quit && k < |fetching|
      modifies this
      ensures Valid()
      ensures stock == old(stock) + [ResponseSet(res, old(fetching)[k])]
      ensures fetching == RemoveAt(old(fetching), k)
      ensures leaving == old(leaving) + [old(fetching)[k]]
      ensures printq == old(printq) && unstarted == old(unstarted) && out == old(out)
      ensures eof == old(eof) && quit == old(quit)
      ensures submitted == old(submitted) && printed == old(printed)
    {
      var e := ResponseSet(res, fetching[k]);
      AccountedArrive(printq, unstarted, fetching, stock, k, res);
      stock := stock + [e];
      leaving := leaving + [fetching[k]];
      fetching := RemoveAt(fetching, k);
    }

    /** Fetch goroutine `k` of those that have appended runs `<-waitingq` (line 74). */
    method Leave(k: nat)
      requires Valid() && !quit && k < |leaving|
      modifies this
      ensures Valid()
      ensures leaving == RemoveAt(old(leaving), k)
      ensures printq == old(printq) && unstarted == old(unstarted) && fetching == old(fetching)
      ensures stock == old(stock) && out == old(out) && eof == old(eof) && quit == old(quit)
      ensures submitted == old(submitted) && printed == old(printed)
    {
      leaving := RemoveAt(leaving, k);
    }

    /**
     * Lines 91-97: print the stock entry `i` for the expected URL, splice it
     * out of `stock`, and quit if nothing is left to wait for. A sub-step of
     * `TryEmit`, which picks the first match.
     */
    method Emit(i: nat)
      requires Valid() && !quit
      requires printq != [] && i < |stock| && stock[i].url == printq[0]
      modifies this
      ensures Valid()
      ensures printed == old(printed) + [old(stock)[i]]
      ensures out == old(out) + [Render(old(stock)[i])]
      ensures stock == RemoveAt(old(stock), i) && printq == old(printq)[1..]
      ensures quit == QuitTest(eof, |unstarted| + |fetching|, |stock|)
      ensures quit <==> eof && unstarted == [] && fetching == [] && printq == []
      ensures unstarted == old(unstarted) && fetching == old(fetching) && leaving == old(leaving)
      ensures eof == old(eof) && submitted == old(submitted)
    {
      var e := stock[i];
      AccountedEmit(printq, unstarted, fetching, stock, i);
      InOrderEmit(printed, printq, submitted, e);
      TranscriptAppend(out, printed, e);
      out := out + [Render(e)];
      printed := printed + [e];
      stock := RemoveAt(stock, i);
      printq := printq[1..];
      QuitTestMeansAllPrinted(eof, printq, unstarted, fetching, stock);
      if QuitTest(eof, |unstarted| + |fetching|, |stock|) {
        quit := true;
      }
    }

    /**
     * One pass of the printer (lines 86-101): for the URL at the head of
     * `printq`, print the first stock entry with that URL, remove exactly that
     * entry, and quit when nothing is outstanding. When no entry matches
     * (or nothing is queued) nothing changes and the printer waits.
     */
    method TryEmit() returns (emitted: bool)
      requires Valid() && !quit
      modifies this
      ensures Valid()
      ensures emitted <==> old(printq) != [] && old(printq)[0] in Urls(old(stock))
      ensures emitted ==>
        var i := FirstMatch(old(stock), old(printq)[0]);
        i < |old(stock)| &&
        printed == old(printed) + [old(stock)[i]] &&
        out == old(out) + [Render(old(stock)[i])] &&
        stock == RemoveAt(old(stock), i) &&
        printq == old(printq)[1..] &&
        quit == QuitTest(eof, |unstarted| + |fetching|, |stock|)
      ensures !emitted ==>
        printq == old(printq) && stock == old(stock) && out == old(out) &&
        printed == old(printed) && quit == old(quit)
      ensures old(unstarted) == [] && old(fetching) == [] && old(printq) != [] ==> emitted
      ensures unstarted == old(unstarted) && fetching == old(fetching) && leaving == old(leaving)
      ensures eof == old(eof) && submitted == old(submitted)
    {
      if printq == [] {
        return false;
      }
      var url := printq[0];
      if unstarted == [] && fetching == [] {
        AllArrivedHeadMatches(printq, stock);
      }
      FirstMatchFinds(stock, url);
      var i := FindEntry(stock, url);
      if i == |stock| {
        return false;
      }
      Emit(i);
      emitted := true;
    }

    /**
     * The printer's outer loop (lines 85-104) once every fetch has arrived:
     * all queued URLs are printed, in reading order, each with the response
     * that was held for it, and the program quits exactly when the input has
     * ended and something was printed.
     */
    method RunPrinter()
      requires Valid() && !quit && unstarted == [] && fetching == []
      modifies this
      ensures Valid()
      ensures printq == [] && stock == [] && Urls(printed) == submitted
      ensures multiset(printed) == multiset(old(printed)) + multiset(old(stock))
      ensures old(printed) <= printed && old(out) <= out
      ensures quit == (eof && old(printq) != [])
      ensures unstarted == [] && fetching == [] && leaving == old(leaving)
      ensures eof == old(eof) && submitted == old(submitted)
    {
      while printq != []
        invariant Valid() && unstarted == [] && fetching == [] && leaving == old(leaving)
        invariant eof == old(eof) && submitted == old(submitted)
        invariant quit == (eof && printq == [] && old(printq) != [])
        invariant multiset(printed) + multiset(stock) == multiset(old(printed)) + multiset(old(stock))
        invariant old(printed) <= printed && old(out) <= out
        decreases |printq|
      {
        ghost var before, i := stock, FirstMatch(stock, printq[0]);
        ghost var pr, o := printed, out;
        var _ := TryEmit();
        assert pr <= printed && o <= out;
        RemoveAtMultiset(before, i);
        assert |multiset(printq)| == |printq|;
      }
      assert |multiset(Urls(stock))| == 0;
    }
  }

  /**
   * A run of ballad.go in which the printer's own quit test, which counts only
   * `len(waitingq)`, fires while a URL is still unprinted: "http://b" has been
   * read and its goroutine spawned, but that goroutine has not reached line 69
   * when "http://a" is printed. The test the model uses does not fire.
   */
  method PrematureQuitTrace() returns (asWritten: bool, corrected: bool, unprinted: seq<string>)
    ensures asWritten && !corrected
    ensures unprinted == ["http://b"]
  {
    var p := new Pipeline();
    p.Submit("http://a");
    p.Submit("http://b");
    p.EndOfInput();
    p.Start(0);
    p.Arrive(0, Some(200));
    p.Leave(0);
    assert p.stock[0].url == p.printq[0] == "http://a";
    p.Emit(0);
    asWritten := QuitTest(p.eof, |p.fetching| + |p.leaving|, |p.stock|);
    corrected := p.quit;
    unprinted := p.printq;
  }

  /**
   * A run of ballad.go in which the printer's own quit test misses the end:
   * the last fetch goroutine has appended its entry (line 72) but not yet run
   * `<-waitingq` (line 74) when the printer prints that entry, so
   * `len(waitingq)` is 1. Nothing is left on `printq`, the printer blocks at
   * line 86, and no later step repeats the test. The test the model uses
   * fires.
   */
  method MissedQuitTrace() returns (asWritten: bool, corrected: bool, unprinted: seq<string>)
    ensures !asWritten && corrected
    ensures unprinted == []
  {
    var p := new Pipeline();
    p.Submit("http://a");
    p.EndOfInput();
    p.Start(0);
    p.Arrive(0, Some(200));
    assert p.stock[0].url == p.printq[0] == "http://a";
    p.Emit(0);
    asWritten := QuitTest(p.eof, |p.fetching| + |p.leaving|, |p.stock|);
    corrected := p.quit;
    unprinted := p.printq;
  }
}
