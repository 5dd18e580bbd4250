/** What a header block's waiters find: when a response is available, which code is final, and what a block's status
    means. */
module HeaderOutcome {
  import opened Headers
  import opened Messages

  // ---- the status line

  /** Status line with a version that ends at v, spaces up to k, and three digits there. */
  predicate HasStatus(line: string, v: nat, k: nat) {
    && v < k && k + 3 <= |line|
    && (forall j :: 0 <= j < v ==> line[j] != ' ') && (forall j :: v <= j < k ==> line[j] == ' ')
    && IsDigit(line[k]) && IsDigit(line[k + 1]) && IsDigit(line[k + 2])
  }

  lemma FirstSpaceIs(line: string, i: nat)
    requires i <= |line|
    ensures var k := FirstSpace(line, i); (forall j :: i <= j < k ==> line[j] != ' ') && (k < |line| ==> line[k] == ' ')
    decreases |line| - i
  {
    if i < |line| && line[i] != ' ' {
      FirstSpaceIs(line, i + 1);
    }
  }

  lemma PastSpacesIs(line: string, i: nat)
    requires i <= |line|
    ensures var k := PastSpaces(line, i); (forall j :: i <= j < k ==> line[j] == ' ') && (k < |line| ==> line[k] != ' ')
    decreases |line| - i
  {
    if i < |line| && line[i] == ' ' {
      PastSpacesIs(line, i + 1);
    }
  }

  predicate ReadsAs(line: string, v: nat, k: nat, status: int) {
    HasStatus(line, v, k) && status == 100 * Digit(line[k]) + 10 * Digit(line[k + 1]) + Digit(line[k + 2])
  }

  /** The status of any line is its three digits where they belong, and zero if they are not there. */
  lemma StatusExactly(line: string)
    ensures (exists v: nat, k: nat :: ReadsAs(line, v, k, ParseStatus(line)))
            || (ParseStatus(line) == 0 && forall v: nat, k: nat :: !HasStatus(line, v, k))
  {
    if v: nat, k: nat :| HasStatus(line, v, k) {
      SpaceFound(line, 0, v);
      SpacesSkipped(line, v, k);
      assert ReadsAs(line, v, k, ParseStatus(line));
    } else {
      var first := FirstSpace(line, 0);
      var past := PastSpaces(line, first);
      FirstSpaceIs(line, 0);
      PastSpacesIs(line, first);
      assert past + 3 <= |line| && first < past ==> !HasStatus(line, first, past);
    }
  }

  // ---- which blocks are published

  /** Equal, or one letter in its two cases. */
  predicate SameLetter(c: char, d: char) {
    || c == d
    || ('A' <= c <= 'Z' && d as int == c as int + 32)
    || ('A' <= d <= 'Z' && c as int == d as int + 32)
  }

  lemma LowerIsCase(c: char, d: char)
    ensures Lower(c) == Lower(d) <==> SameLetter(c, d)
  {
  }

  /** The block has a proxy's greeting somewhere, in any mixture of cases. */
  predicate Greets(block: string) {
    exists offset :: 0 <= offset <= |block| && GreetsAt(block, offset)
  }

  predicate GreetsAt(block: string, offset: nat) {
    && offset + |PROXY_GREETING| <= |block|
    && forall i :: 0 <= i < |PROXY_GREETING| ==> SameLetter(block[offset + i], PROXY_GREETING[i])
  }

  lemma GreetingAnyCase(block: string)
    ensures ContainsIgnoringCase(block, PROXY_GREETING) <==> Greets(block)
  {
    forall offset: nat
      ensures MatchesAt(block, PROXY_GREETING, offset) <==> GreetsAt(block, offset)
    {
      forall i | offset + |PROXY_GREETING| <= |block| && 0 <= i < |PROXY_GREETING|
        ensures Lower(block[offset + i]) == Lower(PROXY_GREETING[i]) <==>
                SameLetter(block[offset + i], PROXY_GREETING[i])
      {
        LowerIsCase(block[offset + i], PROXY_GREETING[i]);
      }
    }
  }

  /** Which finished blocks wake a waiter, by status: the switch of protocols, successes but for a proxy's answer to
      CONNECT, and errors but for the two that ask for authentication; not interim answers and redirects, nor an
      unreadable status. */
  lemma PublishedByClass(status: int, block: string)
    ensures status < 100 || (100 <= status < 200 && status != 101) ==> !Publishes(status, block)
    ensures 300 <= status < 400 || status == 401 || status == 407 ==> !Publishes(status, block)
    ensures status == 200 ==> (Publishes(status, block) <==> !Greets(block))
    ensures status == 101 || 201 <= status < 300 || status == 400 || 402 <= status <= 406 || status >= 408 ==>
            Publishes(status, block)
  {
    GreetingAnyCase(block);
  }

  // ---- whether there is a response

  /** The latest block to end carried a readable status. */
  ghost predicate LatestAnswers(lines: seq<string>) {
    exists a: nat, b: nat :: IsBlock(lines, a, b) && NoLaterEnd(lines, a) && ParseStatus(lines[a]) != 0
  }

  lemma BlockHasEnded(lines: seq<string>, a: nat, b: nat)
    requires IsBlock(lines, a, b)
    ensures !NoLaterEnd(lines, -1)
  {
    var e :| a < e < b && Ends(lines, a, e);
  }

  lemma StatusOfLatest(events: seq<Event>)
    requires AllStored(events)
    ensures After(events).completedStatus != 0 <==> LatestAnswers(LinesOf(events))
  {
    var lines := LinesOf(events);
    CompletedIsLatestBlock(events);
    if NoLaterEnd(lines, -1) {
      forall a: nat, b: nat
        ensures !IsBlock(lines, a, b)
      {
        if IsBlock(lines, a, b) {
          BlockHasEnded(lines, a, b);
        }
      }
    } else {
      var a: nat, b: nat :| IsBlock(lines, a, b) && NoLaterEnd(lines, a)
        && After(events).completed == Concat(lines[a..b]) && After(events).completedStatus == ParseStatus(lines[a]);
      if a': nat, b': nat :| IsBlock(lines, a', b') && NoLaterEnd(lines, a') && ParseStatus(lines[a']) != 0 {
        LatestBlockIsUnique(lines, a, b, a', b');
      }
    }
  }

  /** The body started when a block with a readable status was the latest to have ended. */
  ghost predicate BodyAfterBlock(events: seq<Event>) {
    exists i :: 0 <= i < |events| && BodyAnswersAt(events, i)
  }

  ghost predicate BodyAnswersAt(events: seq<Event>, i: nat)
    requires i < |events|
  {
    events[i].Body? && LatestAnswers(LinesOf(events[..i]))
  }

  lemma BodyAfterNext(events: seq<Event>, e: Event)
    ensures BodyAfterBlock(events + [e]) <==> BodyAfterBlock(events) || (e.Body? && LatestAnswers(LinesOf(events)))
  {
    var more, n := events + [e], |events|;
    assert more[..n] == events;
    forall i | 0 <= i < n
      ensures BodyAnswersAt(more, i) <==> BodyAnswersAt(events, i)
    {
      assert more[..i] == events[..i];
    }
    assert BodyAnswersAt(more, n) <==> e.Body? && LatestAnswers(LinesOf(events));
  }

  /** Exactly when there is a response: a block was published, or the body started behind a block with a readable
      status. */
  lemma {:induction false} ResponseExactly(events: seq<Event>)
    requires AllStored(events)
    ensures After(events).responseAvailable <==> Published(LinesOf(events)) || BodyAfterBlock(events)
  {
    if events != [] {
      var before, e := events[..|events| - 1], events[|events| - 1];
      assert forall i :: 0 <= i < |before| ==> before[i] == events[i];
      assert events == before + [e];
      ResponseExactly(before);
      BodyAfterNext(before, e);
      if e.Body? {
        StatusOfLatest(before);
      }
      if e.Line? && e.line != "" {
        var a, b, c := EventsStand(before);
        PublishedNext(LinesOf(before), After(before), a, b, c, e.line);
        StatusIsNotBlank(e.line);
      }
    }
  }

  /** What a waiter is told, exactly: that there is something to look at, once a block was published, the body started
      or the transfer ended; otherwise it is registered, unless somebody else is. */
  lemma WaitTold(events: seq<Event>, w: Waker)
    requires AllStored(events)
    ensures var h, step := After(events), Wait(After(events), w);
            && (step.answer == Ready <==> Published(LinesOf(events)) || Signalled(events))
            && (step.answer == Registered <==>
                  !Published(LinesOf(events)) && !Signalled(events) && h.waiter.None?)
            && (step.answer == Registered ==> step.h.waiter == Some(w)) && (step.answer != Registered ==> step.h == h)
  {
    ReadyExactly(events);
    WaiterMeansNotReady(events);
  }

  // ---- the final code

  function Codes(events: seq<Event>): seq<int> {
    if events == [] then []
    else
      var before, e := Codes(events[..|events| - 1]), events[|events| - 1];
      if e.Complete? then before + [e.code] else before
  }

  /** The transfer is over once it has been completed, and the code is that of the last completion. */
  lemma {:induction false} CompletedExactly(events: seq<Event>)
    ensures After(events).transferCompleted <==> Codes(events) != []
    ensures After(events).terminalCode == (if Codes(events) == [] then CURLE_OK else Codes(events)[|Codes(events)| - 1])
  {
    if events != [] {
      CompletedExactly(events[..|events| - 1]);
    }
  }

  /** A snapshot reports the end of the transfer instead of a response exactly if the transfer was completed and there
      was none: never behind a published block. */
  lemma TerminalBeforeResponse(events: seq<Event>)
    requires AllStored(events)
    ensures var h := After(events);
            h.transferCompleted && !h.responseAvailable <==>
            Codes(events) != [] && !Published(LinesOf(events)) && !BodyAfterBlock(events)
  {
    ResponseExactly(events);
    CompletedExactly(events);
  }
}
