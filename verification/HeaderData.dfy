/** The header block machine as the C struct: two growable buffers, swapped in place when a block ends. */
module HeaderData {
  import opened Messages
  import opened Words
  import H = Headers
  import opened Headers

  // ---- scanning a line

  method IsStatus(line: string) returns (found: bool)
    ensures found == IsStatusLine(line)
  {
    found := |line| >= 5 && line[0] == 'H' && line[1] == 'T' && line[2] == 'T' && line[3] == 'P' && line[4] == '/';
    if |line| >= 5 {
      assert line[..5] == [line[0], line[1], line[2], line[3], line[4]];
    }
  }

  method IsBlank(line: string) returns (blank: bool)
    ensures blank == IsBlankLine(line)
  {
    blank := (|line| == 1 && line[0] == '\n') || (|line| == 2 && line[0] == '\r' && line[1] == '\n');
  }

  /** The value of the first `count` digits from i on. */
  ghost function Value(line: string, i: nat, count: nat): int
    requires i + count <= |line|
  {
    if count == 0 then 0 else 10 * Value(line, i, count - 1) + Digit(line[i + count - 1])
  }

  /** memchr for a space, then the spaces, then up to three digits. */
  method Parse(line: string) returns (code: int)
    ensures code == ParseStatus(line)
  {
    var i := 0;
    while i < |line| && line[i] != ' '
      invariant 0 <= i <= |line| && FirstSpace(line, 0) == FirstSpace(line, i)
    {
      i := i + 1;
    }
    ghost var first := i;
    if i == |line| {
      return 0;
    }
    while i < |line| && line[i] == ' '
      invariant first <= i <= |line| && PastSpaces(line, first) == PastSpaces(line, i)
    {
      i := i + 1;
    }
    ghost var start := i;
    var status, digits := 0, 0;
    while i < |line| && IsDigit(line[i]) && digits < 3
      invariant 0 <= digits <= 3 && i == start + digits <= |line|
      invariant status == Value(line, start, digits)
      invariant forall k :: start <= k < i ==> IsDigit(line[k])
      decreases 3 - digits
    {
      status := status * 10 + Digit(line[i]);
      i := i + 1;
      digits := digits + 1;
    }
    if digits == 3 {
      var x, y, z := Digit(line[start]), Digit(line[start + 1]), Digit(line[start + 2]);
      assert Value(line, start, 3) == 100 * x + 10 * y + z by {
        assert Value(line, start, 1) == Digit(line[start]);
        assert Value(line, start, 2) == 10 * Digit(line[start]) + Digit(line[start + 1]);
      }
      return status;
    }
    code := 0;
  }

  /** The search over all offsets, comparing without regard to case. */
  method Contains(text: string, needle: string) returns (found: bool)
    ensures found == ContainsIgnoringCase(text, needle)
  {
    if |needle| == 0 || |text| < |needle| {
      return false;
    }
    for offset := 0 to |text| - |needle| + 1
      invariant forall k :: 0 <= k < offset ==> !MatchesAt(text, needle, k)
    {
      var index := 0;
      while index < |needle| && Lower(text[offset + index]) == Lower(needle[index])
        invariant 0 <= index <= |needle|
        invariant forall i :: 0 <= i < index ==> Lower(text[offset + i]) == Lower(needle[i])
      {
        index := index + 1;
      }
      if index == |needle| {
        assert MatchesAt(text, needle, offset);
        return true;
      }
    }
    found := false;
  }

  // ---- growable buffers

  /** Doubling from the present capacity until it suffices; on the verge of overflow, exactly what is required. */
  function Grown(capacity: nat, required: nat): (grown: nat)
    requires 0 < capacity
    ensures required <= grown && (grown == capacity || grown < 2 * required)
    decreases required - capacity
  {
    if required <= capacity then capacity
    else if capacity > SIZE_MAX / 2 then required
    else Grown(capacity * 2, required)
  }

  /** A malloc'ed text with its terminating zero and its length. */
  class Buffer {
    var bytes: array<char>
    var size: nat

    ghost predicate Holds(text: string)
      reads this, bytes
    {
      size == |text| < bytes.Length && bytes[size] == '\0' && bytes[..size] == text
    }

    constructor (capacity: nat)
      ensures Holds("") && fresh(bytes)
      ensures bytes.Length == if capacity > 0 then capacity else 1
    {
      bytes := new char[if capacity > 0 then capacity else 1](_ => '\0');
      size := 0;
    }

    /** realloc to the grown capacity, if that is needed. */
    method Reserve(ghost text: string, required: nat, memory: bool) returns (success: bool)
      requires Holds(text)
      modifies this`bytes
      ensures Holds(text) && (bytes == old(bytes) || fresh(bytes))
      ensures success <==> required <= old(bytes.Length) || memory
      ensures bytes.Length == if success then Grown(old(bytes.Length), required) else old(bytes.Length)
    {
      if required <= bytes.Length {
        return true;
      }
      var grown := bytes.Length;
      while grown < required
        invariant 0 < grown && Grown(grown, required) == Grown(bytes.Length, required)
        decreases required - grown
      {
        if grown > SIZE_MAX / 2 {
          grown := required;
          break;
        }
        grown := grown * 2;
      }
      if !memory {
        return false;
      }
      var resized := new char[grown](i requires 0 <= i reads this, bytes =>
                                       if i < bytes.Length then bytes[i] else '\0');
      assert forall i :: 0 <= i < size ==> resized[i] == bytes[i];
      bytes := resized;
      success := true;
    }

    /** Fails, leaving the text as it was, if the length would overflow or memory runs out. */
    method Append(ghost text: string, data: string, memory: bool) returns (success: bool)
      requires Holds(text)
      modifies this, bytes
      ensures Holds(if success then text + data else text) && (bytes == old(bytes) || fresh(bytes))
      ensures |text| + |data| + 1 <= SIZE_MAX && memory ==> success
      ensures |text| + |data| + 1 > SIZE_MAX ==> !success
    {
      if |data| > SIZE_MAX - size - 1 {
        return false;
      }
      var required := size + |data| + 1;
      success := Reserve(text, required, memory);
      if !success {
        return;
      }
      Copy(text, data);
    }

    /** memcpy behind the text, and the terminator. */
    method Copy(ghost text: string, data: string)
      requires Holds(text) && size + |data| + 1 <= bytes.Length
      modifies this`size, bytes
      ensures Holds(text + data)
    {
      for i := 0 to |data|
        invariant size == old(size) && bytes[..size] == text && bytes[size..size + i] == data[..i]
      {
        bytes[size + i] := data[i];
      }
      size := size + |data|;
      bytes[size] := '\0';
    }

    method Clear(ghost text: string)
      requires Holds(text)
      modifies this`size, bytes
      ensures Holds("")
    {
      size := 0;
      bytes[0] := '\0';
    }
  }

  // ---- the struct

  class HeaderData {
    var current: Buffer
    var completed: Buffer
    var currentStatus: int
    var completedStatus: int
    var inBlock: bool
    var ready: bool
    var responseAvailable: bool
    var transferCompleted: bool
    var terminalCode: int
    var waiter: Option<Waker>

    ghost function Repr(): set<object>
      reads this, current, completed
    {
      {this, current, current.bytes, completed, completed.bytes}
    }

    /** The struct is in the state `h`; its two buffers are apart. */
    ghost predicate Holds(h: Headers)
      reads this, current, completed, current.bytes, completed.bytes
    {
      && current != completed && current.bytes != completed.bytes
      && current.Holds(h.current) && completed.Holds(h.completed)
      && Flags(h)
    }

    ghost predicate Flags(h: Headers)
      reads this
    {
      && currentStatus == h.currentStatus && completedStatus == h.completedStatus && inBlock == h.inBlock
      && ready == h.ready && responseAvailable == h.responseAvailable
      && transferCompleted == h.transferCompleted && terminalCode == h.terminalCode && waiter == h.waiter
    }

    constructor (capacity: nat)
      ensures Holds(FRESH) && fresh(Repr())
    {
      current := new Buffer(capacity);
      completed := new Buffer(capacity);
      currentStatus, completedStatus := 0, 0;
      inBlock, ready, responseAvailable, transferCompleted := false, false, false, false;
      terminalCode, waiter := CURLE_OK, None;
    }

    method Detach() returns (wake: Option<Waker>)
      modifies this`waiter
      ensures wake == old(waiter) && waiter == None
    {
      wake := waiter;
      waiter := None;
    }

    /** A status line: the open block starts over. */
    method EnterBlock(ghost h: Headers, line: string)
      requires Holds(h)
      modifies this`currentStatus, this`inBlock, current`size, current.bytes
      ensures Holds(Entered(h, line))
    {
      var status := IsStatus(line);
      if status {
        current.Clear(h.current);
        currentStatus := Parse(line);
        inBlock := true;
      }
    }

    /** The blank line was stored: the block becomes the completed one and its buffer changes place. */
    method SwapBuffers(ghost h: Headers, ghost block: string)
      requires Holds(h.(current := block))
      modifies this`current, this`completed, this`completedStatus, this`inBlock, completed`size, completed.bytes
      ensures Holds(h.(completed := block, completedStatus := h.currentStatus, current := "", inBlock := false))
      ensures current == old(completed) && completed == old(current)
      ensures current.bytes == old(completed.bytes) && completed.bytes == old(current.bytes)
    {
      var spare := completed;
      completed := current;
      completedStatus := currentStatus;
      current := spare;
      current.Clear(h.completed);
      inBlock := false;
    }

    method ShouldPublish(ghost h: Headers) returns (publish: bool)
      requires Holds(h)
      ensures publish == Publishes(h.completedStatus, h.completed)
    {
      var greeting := Contains(completed.bytes[..completed.size], PROXY_GREETING);
      var proxyConnect := completedStatus == 200 && greeting;
      publish := (completedStatus == 101 || completedStatus >= 200)
        && !(completedStatus >= 300 && completedStatus < 400)
                 && completedStatus != 401 && completedStatus != 407 && !proxyConnect;
    }

    method FinishBlock(ghost h: Headers, ghost block: string) returns (wake: Option<Waker>)
      requires Holds(h.(current := block)) && h.inBlock
      modifies this, completed, completed.bytes
      ensures Holds(H.Finished(h, block))
      ensures wake == if Publishes(h.currentStatus, block) then h.waiter else None
      ensures current == old(completed) && completed == old(current)
      ensures current.bytes == old(completed.bytes) && completed.bytes == old(current.bytes)
    {
      SwapBuffers(h, block);
      var publish := ShouldPublish(h.(completed := block, completedStatus := h.currentStatus, current := "",
                                      inBlock := false));
      wake := None;
      if publish {
        responseAvailable := true;
        ready := true;
        wake := Detach();
      }
    }

    /** A line of the open block. */
    method StoreInBlock(ghost h: Headers, line: string, memory: bool) returns (success: bool, wake: Option<Waker>)
      requires Holds(h) && h.inBlock
      modifies Repr()
      ensures Holds(if !success then h else if IsBlankLine(line) then H.Finished(h, h.current + line)
                    else h.(current := h.current + line))
      ensures fresh(Repr() - old(Repr()))
      ensures wake == if success && IsBlankLine(line) && Publishes(h.currentStatus, h.current + line) then h.waiter
              else None
      ensures |h.current| + |line| + 1 <= SIZE_MAX && memory ==> success
    {
      wake := None;
      success := current.Append(h.current, line, memory);
      var blank := IsBlank(line);
      if success && blank {
        wake := FinishBlock(h, h.current + line);
      }
    }

    /** A line after the completed block. */
    method StoreTrailer(ghost h: Headers, line: string, memory: bool) returns (success: bool)
      requires Holds(h)
      modifies completed, completed.bytes
      ensures Holds(if success then h.(completed := h.completed + line) else h)
      ensures fresh(Repr() - old(Repr()))
      ensures |h.completed| + |line| + 1 <= SIZE_MAX && memory ==> success
    {
      success := completed.Append(h.completed, line, memory);
    }

    /** header_callback. `success` is whether it answers that it took the line, whose length libcurl passes as a
        product. */
    method OnLine(ghost h: Headers, line: string, size: nat, items: nat, memory: bool)
      returns (success: bool, wake: Option<Waker>)
      requires Holds(h) && size < WORD && items < WORD && (size * items < WORD ==> |line| == size * items)
      modifies Repr()
      ensures size * items < WORD ==> Holds(H.OnLine(h, line, success))
      ensures size * items >= WORD ==> Holds(h) && !success && wake == None
      ensures size * items < WORD ==> wake == if H.OnLine(h, line, success).waiter == h.waiter then None else h.waiter
      ensures line != "" && memory && size * items < WORD && |h.current| + |h.completed| + |line| + 1 <= SIZE_MAX ==>
              success
      ensures fresh(Repr() - old(Repr()))
    {
      var fits, total := CheckedSize(size, items);
      if !fits || total == 0 {
        return false, None;
      }
      success, wake := StoreLine(h, line, memory);
    }

    /** The callback's critical section. */
    method StoreLine(ghost h: Headers, line: string, memory: bool) returns (success: bool, wake: Option<Waker>)
      requires Holds(h) && line != ""
      modifies Repr()
      ensures Holds(H.OnLine(h, line, success)) && fresh(Repr() - old(Repr()))
      ensures wake == if H.OnLine(h, line, success).waiter == h.waiter then None else h.waiter
      ensures memory && |h.current| + |h.completed| + |line| + 1 <= SIZE_MAX ==> success
    {
      EnterBlock(h, line);
      ghost var entered := Entered(h, line);
      success, wake := true, None;
      if inBlock {
        success, wake := StoreInBlock(entered, line, memory);
      } else if completed.size > 0 {
        success := StoreTrailer(entered, line, memory);
      }
    }

    method Wait(ghost h: Headers, w: Waker) returns (answer: WaitAnswer)
      requires Holds(h)
      modifies this`waiter
      ensures Holds(H.Wait(h, w).h) && answer == H.Wait(h, w).answer
    {
      if ready {
        return Ready;
      }
      if waiter.Some? {
        return Invalid;
      }
      waiter := Some(w);
      answer := Registered;
    }

    method CancelWait(ghost h: Headers, w: Waker) returns (removed: bool)
      requires Holds(h)
      modifies this`waiter
      ensures Holds(H.CancelWait(h, w)) && removed == (h.waiter == Some(w))
    {
      removed := false;
      if waiter == Some(w) {
        waiter := None;
        removed := true;
      }
    }

    method BodyStarted(ghost h: Headers) returns (wake: Option<Waker>)
      requires Holds(h)
      modifies this`responseAvailable, this`ready, this`waiter
      ensures Holds(H.BodyStarted(h)) && wake == h.waiter
    {
      if completedStatus != 0 {
        responseAvailable := true;
      }
      ready := true;
      wake := Detach();
    }

    method MarkComplete(ghost h: Headers, code: int) returns (wake: Option<Waker>)
      requires Holds(h)
      modifies this`transferCompleted, this`terminalCode, this`ready, this`waiter
      ensures Holds(H.MarkComplete(h, code)) && wake == h.waiter
    {
      transferCompleted := true;
      terminalCode := code;
      ready := true;
      wake := Detach();
    }

    /** header_data_snapshot: a private copy of the completed block. */
    method Snapshot(ghost h: Headers, memory: bool)
      returns (text: Option<string>, status: int, terminalBeforeResponse: bool, code: int)
      requires Holds(h)
      ensures text == if memory then Some(h.completed) else None
      ensures memory ==> status == h.completedStatus && code == h.terminalCode
      ensures memory ==> terminalBeforeResponse == (h.transferCompleted && !h.responseAvailable)
    {
      text, status, terminalBeforeResponse, code := None, 0, false, 0;
      if memory {
        text := Some(completed.bytes[..completed.size]);
        status := completedStatus;
        terminalBeforeResponse := transferCompleted && !responseAvailable;
        code := terminalCode;
      }
    }
  }
}
