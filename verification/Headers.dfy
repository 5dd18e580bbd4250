/** The response-header block machine of cbits/headers.c: what each critical section does. */
module Headers {
  import opened Messages

  datatype Headers = Headers(
    current: string,
    completed: string,
    currentStatus: int,
    completedStatus: int,
    inBlock: bool,
    ready: bool,
    responseAvailable: bool,
    transferCompleted: bool,
    terminalCode: int,
    waiter: Option<Waker>)

  const FRESH := Headers("", "", 0, 0, false, false, false, false, CURLE_OK, None)

  // ---- lines

  predicate IsStatusLine(line: string) {
    |line| >= 5 && line[..5] == "HTTP/"
  }

  predicate IsBlankLine(line: string) {
    line == "\n" || line == "\r\n"
  }

  predicate IsDigit(c: char) {
    '0' <= c <= '9'
  }

  function Digit(c: char): int {
    c as int - '0' as int
  }

  /** Index of the first space at or after i, or the length. */
  function FirstSpace(line: string, i: nat): (k: nat)
    requires i <= |line|
    ensures i <= k <= |line|
    decreases |line| - i
  {
    if i == |line| || line[i] == ' ' then i else FirstSpace(line, i + 1)
  }

  /** Index of the first character at or after i that is not a space, or the length. */
  function PastSpaces(line: string, i: nat): (k: nat)
    requires i <= |line|
    ensures i <= k <= |line|
    decreases |line| - i
  {
    if i == |line| || line[i] != ' ' then i else PastSpaces(line, i + 1)
  }

  /** The three digits after the first run of spaces; zero if they are not there. */
  function ParseStatus(line: string): int {
    var i := PastSpaces(line, FirstSpace(line, 0));
    if i + 3 <= |line| && IsDigit(line[i]) && IsDigit(line[i + 1]) && IsDigit(line[i + 2])
    then 100 * Digit(line[i]) + 10 * Digit(line[i + 1]) + Digit(line[i + 2])
    else 0
  }

  function Lower(c: char): char {
    if 'A' <= c <= 'Z' then (c as int + 32) as char else c
  }

  predicate MatchesAt(text: string, needle: string, offset: nat) {
    offset + |needle| <= |text| && forall i :: 0 <= i < |needle| ==> Lower(text[offset + i]) == Lower(needle[i])
  }

  predicate ContainsIgnoringCase(text: string, needle: string) {
    needle != "" && exists offset :: 0 <= offset <= |text| && MatchesAt(text, needle, offset)
  }

  const PROXY_GREETING := "connection established"

  /** A finished block is published at once unless it is informational, a redirect, an authentication challenge or a
      proxy's answer to CONNECT. */
  predicate Publishes(status: int, block: string) {
    && (status == 101 || status >= 200)
    && !(300 <= status < 400)
    && status != 401 && status != 407
    && !(status == 200 && ContainsIgnoringCase(block, PROXY_GREETING))
  }

  // ---- critical sections

  /** header_callback on one line; `stored` tells whether an append that was needed succeeded. */
  function OnLine(h: Headers, line: string, stored: bool): Headers {
    if line == "" then h
    else
      var entered := Entered(h, line);
      if entered.inBlock then
        if !stored then entered
        else if IsBlankLine(line) then Finished(entered, entered.current + line)
        else entered.(current := entered.current + line)
      else if entered.completed != "" && stored then entered.(completed := entered.completed + line)
      else entered
  }

  /** A status line starts a new block. */
  function Entered(h: Headers, line: string): Headers {
    if IsStatusLine(line) then h.(current := "", currentStatus := ParseStatus(line), inBlock := true) else h
  }

  /** The block has reached its blank line. */
  function Finished(h: Headers, block: string): Headers {
    var done := h.(completed := block, completedStatus := h.currentStatus, current := "", inBlock := false);
    if Publishes(h.currentStatus, block) then done.(responseAvailable := true, ready := true, waiter := None) else done
  }

  datatype WaitAnswer = Registered | Ready | Invalid

  datatype WaitStep = WaitStep(h: Headers, answer: WaitAnswer)

  function Wait(h: Headers, w: Waker): WaitStep {
    if h.ready then WaitStep(h, Ready)
    else if h.waiter.Some? then WaitStep(h, Invalid)
    else WaitStep(h.(waiter := Some(w)), Registered)
  }

  function CancelWait(h: Headers, w: Waker): Headers {
    if h.waiter == Some(w) then h.(waiter := None) else h
  }

  function BodyStarted(h: Headers): Headers {
    h.(responseAvailable := h.responseAvailable || h.completedStatus != 0, ready := true, waiter := None)
  }

  /** Unlike the stream's, this terminal code is overwritten. */
  function MarkComplete(h: Headers, code: int): Headers {
    h.(transferCompleted := true, terminalCode := code, ready := true, waiter := None)
  }

  datatype Event =
    | Line(line: string, stored: bool)
    | Body
    | Complete(code: int)
    | Register(w: Waker)
    | Cancel(w: Waker)

  /** One critical section. */
  function Apply(h: Headers, e: Event): Headers {
    match e
    case Line(line, stored) => OnLine(h, line, stored)
    case Body => BodyStarted(h)
    case Complete(code) => MarkComplete(h, code)
    case Register(w) => Wait(h, w).h
    case Cancel(w) => CancelWait(h, w)
  }

  function After(events: seq<Event>): Headers {
    if events == [] then FRESH else Apply(After(events[..|events| - 1]), events[|events| - 1])
  }

  predicate AllStored(events: seq<Event>) {
    forall i :: 0 <= i < |events| ==> events[i].Line? ==> events[i].stored
  }

  /** The body has started or the transfer has completed. */
  predicate Signalled(events: seq<Event>) {
    exists i :: 0 <= i < |events| && (events[i].Body? || events[i].Complete?)
  }

  /** The lines libcurl delivered. */
  function LinesOf(events: seq<Event>): seq<string> {
    if events == [] then []
    else
      var before := LinesOf(events[..|events| - 1]);
      var e := events[|events| - 1];
      if e.Line? && e.line != "" then before + [e.line] else before
  }

  // ---- the line stream, seen as a whole

  function Concat(lines: seq<string>): string {
    if lines == [] then "" else Concat(lines[..|lines| - 1]) + lines[|lines| - 1]
  }

  /** The block that starts at line a ends at line e: the first blank line, with no other status line in between. */
  predicate Ends(lines: seq<string>, a: nat, e: nat) {
    && a < e < |lines| && IsStatusLine(lines[a]) && IsBlankLine(lines[e])
    && forall k :: a < k < e ==> !IsStatusLine(lines[k]) && !IsBlankLine(lines[k])
  }

  /** Lines a to b: a block that ended, with its trailers, up to the next status line. */
  predicate IsBlock(lines: seq<string>, a: nat, b: nat) {
    && a < b <= |lines| && IsStatusLine(lines[a])
    && (forall k :: a < k < b ==> !IsStatusLine(lines[k]))
    && (b < |lines| ==> IsStatusLine(lines[b]))
    && exists e :: a < e < b && Ends(lines, a, e)
  }

  ghost predicate NoLaterEnd(lines: seq<string>, a: int) {
    forall a', e' :: a < a' && 0 <= a' && 0 <= e' ==> !Ends(lines, a', e')
  }

  /** Some block ended and was of the kind that is published at once. */
  ghost predicate Published(lines: seq<string>) {
    exists a, e :: PublishedAt(lines, a, e)
  }

  predicate PublishedAt(lines: seq<string>, a: nat, e: nat) {
    Ends(lines, a, e) && Publishes(ParseStatus(lines[a]), Concat(lines[a..e + 1]))
  }

  /** Where the machine stands in the stream: the completed block is lines a to b, the open one starts at c. */
  ghost predicate Stands(lines: seq<string>, h: Headers, a: int, b: nat, c: int) {
    && (h.inBlock <==> 0 <= c)
    && (0 <= c ==> OpenAt(lines, h, c))
    && (c < 0 ==> h.current == "")
    && (0 <= a ==>
          IsBlock(lines, a, b) && h.completed == Concat(lines[a..b]) && h.completedStatus == ParseStatus(lines[a]))
    && (0 <= a && c < 0 ==> b == |lines|)
    && (0 <= a && 0 <= c ==> b <= c)
    && (a < 0 ==> h.completed == "" && h.completedStatus == 0)
    && (a < 0 && c < 0 ==> forall k :: 0 <= k < |lines| ==> !IsStatusLine(lines[k]))
    && NoLaterEnd(lines, a)
  }

  predicate OpenAt(lines: seq<string>, h: Headers, c: nat) {
    && c < |lines| && IsStatusLine(lines[c])
    && (forall k :: c < k < |lines| ==> !IsStatusLine(lines[k]) && !IsBlankLine(lines[k]))
    && h.current == Concat(lines[c..]) && h.currentStatus == ParseStatus(lines[c])
  }

  lemma ConcatNext(lines: seq<string>, a: nat, line: string)
    requires a <= |lines|
    ensures Concat((lines + [line])[a..]) == Concat(lines[a..]) + line
  {
    var after := (lines + [line])[a..];
    assert after[..|after| - 1] == lines[a..] && after[|after| - 1] == line;
  }

  lemma SliceKept(lines: seq<string>, a: nat, b: nat, line: string)
    requires a <= b <= |lines|
    ensures (lines + [line])[a..b] == lines[a..b]
  {
  }

  lemma EndsKept(lines: seq<string>, line: string, a: nat, e: nat)
    requires e < |lines|
    ensures Ends(lines + [line], a, e) <==> Ends(lines, a, e)
  {
    if a < e {
      assert forall k :: a <= k <= e ==> (lines + [line])[k] == lines[k];
    }
  }

  lemma BlockKept(lines: seq<string>, a: nat, b: nat, line: string)
    requires IsBlock(lines, a, b) && (b == |lines| ==> IsStatusLine(line))
    ensures IsBlock(lines + [line], a, b) && (lines + [line])[a] == lines[a]
  {
    var e :| a < e < b && Ends(lines, a, e);
    EndsKept(lines, line, a, e);
  }

  lemma BlockGrows(lines: seq<string>, a: nat, line: string)
    requires IsBlock(lines, a, |lines|) && !IsStatusLine(line)
    ensures IsBlock(lines + [line], a, |lines| + 1) && (lines + [line])[a] == lines[a]
  {
    var e :| a < e < |lines| && Ends(lines, a, e);
    EndsKept(lines, line, a, e);
  }

  lemma NoLaterEndKept(lines: seq<string>, a: int, line: string)
    requires NoLaterEnd(lines, a)
    requires forall a' :: a < a' && 0 <= a' ==> !Ends(lines + [line], a', |lines|)
    ensures NoLaterEnd(lines + [line], a)
  {
    forall a', e' | a < a' && 0 <= a' && 0 <= e'
      ensures !Ends(lines + [line], a', e')
    {
      if e' < |lines| {
        EndsKept(lines, line, a', e');
      }
    }
  }

  /** A status line opens a block; whatever was open before it is forgotten. */
  lemma StatusStands(lines: seq<string>, h: Headers, a: int, b: nat, c: int, line: string)
    requires Stands(lines, h, a, b, c) && IsStatusLine(line)
    ensures Stands(lines + [line], OnLine(h, line, true), a, b, |lines|)
  {
    var lines' := lines + [line];
    NoLaterEndKept(lines, a, line);
    assert lines'[|lines|..] == [line];
    assert Concat([line]) == line;
    if 0 <= a {
      BlockKept(lines, a, b, line);
      SliceKept(lines, a, b, line);
    }
  }

  /** The blank line that ends the open block makes it the completed one. */
  lemma BlankStands(lines: seq<string>, h: Headers, a: int, b: nat, c: int, line: string)
    requires Stands(lines, h, a, b, c) && 0 <= c && IsBlankLine(line)
    ensures Ends(lines + [line], c, |lines|)
    ensures Stands(lines + [line], OnLine(h, line, true), c, |lines| + 1, -1)
  {
    var lines' := lines + [line];
    ConcatNext(lines, c, line);
    assert lines'[c..|lines| + 1] == lines'[c..];
    assert Ends(lines', c, |lines|);
    assert NoLaterEnd(lines', c) by {
      forall a', e' | c < a' && 0 <= a' && 0 <= e'
        ensures !Ends(lines', a', e')
      {
        if a' < |lines| {
          assert !IsStatusLine(lines[a']);
        }
      }
    }
  }

  /** Any other line of an open block. */
  lemma FieldStands(lines: seq<string>, h: Headers, a: int, b: nat, c: int, line: string)
    requires Stands(lines, h, a, b, c) && 0 <= c && !IsBlankLine(line) && !IsStatusLine(line) && line != ""
    ensures Stands(lines + [line], OnLine(h, line, true), a, b, c)
  {
    ConcatNext(lines, c, line);
    NoLaterEndKept(lines, a, line);
    if 0 <= a {
      BlockKept(lines, a, b, line);
      SliceKept(lines, a, b, line);
    }
  }

  /** Between blocks a line is a trailer of the completed block, or is ignored before the first one. */
  lemma TrailerStands(lines: seq<string>, h: Headers, a: int, b: nat, c: int, line: string)
    requires Stands(lines, h, a, b, c) && c < 0 && !IsStatusLine(line) && line != ""
    ensures Stands(lines + [line], OnLine(h, line, true), a, if 0 <= a then b + 1 else b, c)
  {
    NoLaterEndKept(lines, a, line);
    if 0 <= a {
      BlockGrows(lines, a, line);
      ConcatNext(lines, a, line);
      assert (lines + [line])[a..|lines| + 1] == (lines + [line])[a..];
      assert lines[a..b] == lines[a..];
      CompletedNotEmpty(lines, a, b);
    }
  }

  lemma CompletedNotEmpty(lines: seq<string>, a: nat, b: nat)
    requires a < b <= |lines| && IsStatusLine(lines[a])
    ensures Concat(lines[a..b]) != ""
    decreases b
  {
    var slice := lines[a..b];
    if b > a + 1 {
      CompletedNotEmpty(lines, a, b - 1);
      assert slice[..|slice| - 1] == lines[a..b - 1];
    } else {
      assert slice == [lines[a]];
    }
  }

  lemma LineStands(lines: seq<string>, h: Headers, a: int, b: nat, c: int, line: string)
    returns (a': int, b': nat, c': int)
    requires Stands(lines, h, a, b, c) && line != ""
    ensures Stands(lines + [line], OnLine(h, line, true), a', b', c')
  {
    a', b', c' := a, b, c;
    if IsStatusLine(line) {
      c' := |lines|;
      StatusStands(lines, h, a, b, c, line);
    } else if 0 <= c && IsBlankLine(line) {
      a', b', c' := c, |lines| + 1, -1;
      BlankStands(lines, h, a, b, c, line);
    } else if 0 <= c {
      FieldStands(lines, h, a, b, c, line);
    } else {
      b' := if 0 <= a then b + 1 else b;
      TrailerStands(lines, h, a, b, c, line);
    }
  }

  lemma OthersStand(lines: seq<string>, h: Headers, a: int, b: nat, c: int, e: Event)
    requires Stands(lines, h, a, b, c) && (e.Line? ==> e.line == "")
    ensures Stands(lines, Apply(h, e), a, b, c)
  {
  }

  lemma {:induction false} EventsStand(events: seq<Event>) returns (a: int, b: nat, c: int)
    requires AllStored(events)
    ensures Stands(LinesOf(events), After(events), a, b, c)
  {
    if events == [] {
      a, b, c := -1, 0, -1;
      assert Stands([], FRESH, -1, 0, -1);
    } else {
      var before, e := events[..|events| - 1], events[|events| - 1];
      a, b, c := EventsStand(before);
      if e.Line? && e.line != "" {
        a, b, c := LineStands(LinesOf(before), After(before), a, b, c, e.line);
      } else {
        OthersStand(LinesOf(before), After(before), a, b, c, e);
      }
    }
  }

  // ---- what the header machine promises

  /** Blocks never mix. Whatever else happens in between, the completed buffer is empty as long as no block has ended;
      then it is one contiguous slice of the line stream: the latest block that reached its blank line, with its
      trailers, up to the next status line; and the completed status is parsed from the slice's first line. */
  lemma CompletedIsLatestBlock(events: seq<Event>)
    requires AllStored(events)
    ensures var lines, h := LinesOf(events), After(events);
            if NoLaterEnd(lines, -1) then h.completed == "" && h.completedStatus == 0
            else exists a: nat, b: nat :: IsBlock(lines, a, b) && NoLaterEnd(lines, a)
                                          && h.completed == Concat(lines[a..b])
                                             && h.completedStatus == ParseStatus(lines[a])
  {
    var a, b, c := EventsStand(events);
    if 0 <= a {
      var lines := LinesOf(events);
      var e :| a < e < b && Ends(lines, a, e);
      assert !NoLaterEnd(lines, -1);
    }
  }

  /** There is only one such slice. */
  lemma LatestBlockIsUnique(lines: seq<string>, a: nat, b: nat, a': nat, b': nat)
    requires IsBlock(lines, a, b) && NoLaterEnd(lines, a) && IsBlock(lines, a', b') && NoLaterEnd(lines, a')
    ensures a == a' && b == b'
  {
    var e :| a < e < b && Ends(lines, a, e);
    var e' :| a' < e' < b' && Ends(lines, a', e');
  }

  /** The open buffer holds exactly the lines since the latest status line, as long as its block has not ended. */
  lemma CurrentIsOpenBlock(events: seq<Event>) returns (c: nat)
    requires AllStored(events)
    ensures var lines, h := LinesOf(events), After(events);
            if h.inBlock then OpenAt(lines, h, c) else h.current == ""
  {
    var a, b, open := EventsStand(events);
    c := if 0 <= open then open else 0;
  }

  /** A new last line can end no block but the open one. */
  lemma OnlyOpenEnds(lines: seq<string>, h: Headers, a: int, b: nat, c: int, line: string, a': nat)
    requires Stands(lines, h, a, b, c) && a' != c && a' < |lines|
    ensures !Ends(lines + [line], a', |lines|)
  {
    var lines' := lines + [line];
    assert lines'[a'] == lines[a'];
    if a' < c {
      assert IsStatusLine(lines'[c]);
    } else if c < 0 && a' < a {
      assert IsStatusLine(lines'[a]);
    } else if c < 0 && a' == a {
      var e :| a < e < b && Ends(lines, a, e);
      assert IsBlankLine(lines'[e]);
    }
  }

  /** What was published stays so, and the open block is when its blank line qualifies. */
  lemma PublishedGrows(lines: seq<string>, h: Headers, a: int, b: nat, c: int, line: string)
    requires Stands(lines, h, a, b, c)
    ensures Published(lines) ==> Published(lines + [line])
    ensures 0 <= c && IsBlankLine(line) ==>
              (PublishedAt(lines + [line], c, |lines|) <==> Publishes(h.currentStatus, h.current + line))
  {
    var lines', n := lines + [line], |lines|;
    if Published(lines) {
      var a': nat, e': nat :| PublishedAt(lines, a', e');
      PublishedKept(lines, line, a', e');
    }
    if 0 <= c && IsBlankLine(line) {
      BlankStands(lines, h, a, b, c, line);
      ConcatNext(lines, c, line);
      assert lines'[c..n + 1] == lines'[c..];
    }
  }

  lemma PublishedNext(lines: seq<string>, h: Headers, a: int, b: nat, c: int, line: string)
    requires Stands(lines, h, a, b, c) && line != ""
    ensures Published(lines + [line]) <==>
              Published(lines) || (0 <= c && IsBlankLine(line) && Publishes(h.currentStatus, h.current + line))
  {
    var lines', n := lines + [line], |lines|;
    PublishedGrows(lines, h, a, b, c, line);
    if Published(lines') {
      var a': nat, e': nat :| PublishedAt(lines', a', e');
      if e' < n {
        PublishedKept(lines, line, a', e');
      } else if a' != c {
        OnlyOpenEnds(lines, h, a, b, c, line, a');
      }
    }
  }

  lemma PublishedKept(lines: seq<string>, line: string, a: nat, e: nat)
    requires e < |lines|
    ensures PublishedAt(lines + [line], a, e) <==> PublishedAt(lines, a, e)
  {
    EndsKept(lines, line, a, e);
    if a < e {
      SliceKept(lines, a, e + 1, line);
    }
  }

  /** The response is ready exactly when a block was published, the body started, or the transfer completed. */
  lemma {:induction false} ReadyExactly(events: seq<Event>)
    requires AllStored(events)
    ensures After(events).ready <==> Published(LinesOf(events)) || Signalled(events)
  {
    if events != [] {
      var before, e := events[..|events| - 1], events[|events| - 1];
      ReadyExactly(before);
      assert forall i :: 0 <= i < |before| ==> before[i] == events[i];
      if e.Line? && e.line != "" {
        var a, b, c := EventsStand(before);
        PublishedNext(LinesOf(before), After(before), a, b, c, e.line);
        StatusIsNotBlank(e.line);
      }
      SignalledNext(before, e);
      assert events == before + [e];
    }
  }

  lemma StatusIsNotBlank(line: string)
    ensures !(IsStatusLine(line) && IsBlankLine(line))
  {
  }

  lemma SignalledNext(events: seq<Event>, e: Event)
    ensures Signalled(events + [e]) <==> Signalled(events) || e.Body? || e.Complete?
  {
    if Signalled(events) {
      var i :| 0 <= i < |events| && (events[i].Body? || events[i].Complete?);
      assert (events + [e])[i] == events[i];
    }
    if e.Body? || e.Complete? {
      assert (events + [e])[|events|] == e;
    }
  }

  /** No lost wake-up: whatever fails or arrives, a registered waiter means the response is not ready; readiness
      stays. */
  lemma {:induction false} WaiterMeansNotReady(events: seq<Event>)
    ensures After(events).waiter.Some? ==> !After(events).ready
  {
    if events != [] {
      WaiterMeansNotReady(events[..|events| - 1]);
    }
  }

  lemma ReadyStays(h: Headers, e: Event)
    ensures h.ready ==> Apply(h, e).ready
    ensures h.responseAvailable ==> Apply(h, e).responseAvailable
  {
  }

  // ---- the status line

  lemma SpacesSkipped(line: string, i: nat, k: nat)
    requires i <= k <= |line| && (forall j :: i <= j < k ==> line[j] == ' ') && (k < |line| ==> line[k] != ' ')
    ensures PastSpaces(line, i) == k
    decreases k - i
  {
    if i < k {
      SpacesSkipped(line, i + 1, k);
    }
  }

  lemma SpaceFound(line: string, i: nat, k: nat)
    requires i <= k < |line| && (forall j :: i <= j < k ==> line[j] != ' ') && line[k] == ' '
    ensures FirstSpace(line, i) == k
    decreases k - i
  {
    if i < k {
      SpaceFound(line, i + 1, k);
    }
  }

  /** Reading back a status line: any version without spaces, a space, three digits, and anything after them. */
  lemma StatusRoundTrip(version: string, x: char, y: char, z: char, rest: string)
    requires ' ' !in version && IsDigit(x) && IsDigit(y) && IsDigit(z)
    ensures ParseStatus(version + " " + [x, y, z] + rest) == 100 * Digit(x) + 10 * Digit(y) + Digit(z)
  {
    var line := version + " " + [x, y, z] + rest;
    assert forall j :: 0 <= j < |version| ==> line[j] == version[j];
    SpaceFound(line, 0, |version|);
    SpacesSkipped(line, |version|, |version| + 1);
  }
}
