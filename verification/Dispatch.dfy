/** What the agent thread does with one message or libcurl event, as functions on its own state. */
module Dispatch {
  import opened Messages

  /** Outcomes the rest of the program observes: stored result codes, fired result wakers,
      destroyed easy handles, streams told that their transfer is complete. */
  datatype Ledger = Ledger(
    codes: map<Handle, int>,
    fired: multiset<Handle>,
    cleaned: multiset<Handle>,
    finished: multiset<Handle>)

  const EMPTY_LEDGER := Ledger(map[], multiset{}, multiset{}, multiset{})

  // ---- one-shot completion data (hs_easy_data)

  function SetResult(l: Ledger, result: Option<Handle>, code: int): Ledger {
    if result.None? || result.value in l.codes then l else l.(codes := l.codes[result.value := code])
  }

  function Wake(l: Ledger, result: Option<Handle>): Ledger {
    if result.None? || result.value !in l.codes || result.value in l.fired then l
    else l.(fired := l.fired + multiset{result.value})
  }

  function CompleteStream(l: Ledger, stream: Option<Handle>): Ledger {
    if stream.None? then l else l.(finished := l.finished + multiset{stream.value})
  }

  function CleanUp(l: Ledger, easy: Option<Handle>): Ledger {
    if easy.None? then l else l.(cleaned := l.cleaned + multiset{easy.value})
  }

  function CompleteStreams(l: Ledger, sub: Submission): Ledger {
    CompleteStream(CompleteStream(l, sub.download), sub.upload)
  }

  /** The common tail of fail_unregistered_transfer and finish_detached_transfer. */
  function Settle(l: Ledger, sub: Submission, code: int): Ledger {
    Wake(CleanUp(CompleteStreams(SetResult(l, sub.result, code), sub), sub.easy), sub.result)
  }

  // ---- the agent

  datatype Registered = Registered(sub: Submission, active: bool)

  /** `up` while the bucket array exists; `added` the handles in the multi; `private` libcurl's CURLINFO_PRIVATE. */
  datatype Agent = Agent(
    up: bool,
    registry: map<nat, Registered>,
    added: set<Handle>,
    private: map<Handle, Submission>,
    ledger: Ledger)

  const INITIAL_AGENT := Agent(true, map[], {}, map[], EMPTY_LEDGER)

  /** Whether each stream of the transfer was closed or had its cancel sent when it was asked. */
  datatype Cancelled = Cancelled(download: bool, upload: bool)

  /** Results of the calls that may fail while a transfer is set up. */
  datatype Setup = Setup(memory: bool, optionSet: bool, handleAdded: bool)

  function Normalize(stream: Option<Handle>, cancelled: bool, code: int): int {
    if stream.Some? && cancelled then CURLE_ABORTED_BY_CALLBACK else code
  }

  function FinalCode(sub: Submission, code: int, c: Cancelled): int {
    Normalize(sub.upload, c.upload, Normalize(sub.download, c.download, code))
  }

  function Without(handles: set<Handle>, easy: Option<Handle>): set<Handle> {
    if easy.None? then handles else handles - {easy.value}
  }

  function Forget<V>(private: map<Handle, V>, easy: Option<Handle>): map<Handle, V> {
    if easy.None? then private else private - {easy.value}
  }

  /** finish_detached_transfer on a transfer already out of the registry. */
  function FinishDetached(a: Agent, t: Registered, code: int, c: Cancelled): Agent {
    a.(added := if t.active then Without(a.added, t.sub.easy) else a.added,
       private := Forget(a.private, t.sub.easy),
       ledger := Settle(a.ledger, t.sub, FinalCode(t.sub, code, c)))
  }

  function FailUnregistered(a: Agent, sub: Submission, code: int): Agent {
    a.(ledger := Settle(a.ledger, sub, code))
  }

  function Remove(a: Agent, id: nat): Agent {
    a.(registry := a.registry - {id})
  }

  /** Remove by ID and finish what was there. */
  function Finish(a: Agent, id: nat, code: int, c: Cancelled): Agent {
    if id in a.registry then FinishDetached(Remove(a, id), a.registry[id], code, c) else a
  }

  predicate Acceptable(sub: Submission) {
    sub.easy.Some? && sub.result.Some? && sub.id != 0
  }

  function ExecuteTransfer(a: Agent, sub: Submission, s: Setup, c: Cancelled): Agent {
    if !Acceptable(sub) then
      if sub.easy.Some? || sub.result.Some? || sub.download.Some? || sub.upload.Some?
      then FailUnregistered(a, sub, CURLE_FAILED_INIT) else a
    else if !s.memory then
      FailUnregistered(a, sub, CURLE_OUT_OF_MEMORY)
    else if !a.up || sub.id in a.registry then
      FailUnregistered(a, sub, CURLE_FAILED_INIT)
    else if !s.optionSet then
      FailUnregistered(a, sub, CURLE_FAILED_INIT)
    else if !s.handleAdded then
      FinishDetached(a.(private := a.private[sub.easy.value := sub]), Registered(sub, false), CURLE_FAILED_INIT, c)
    else
      a.(registry := a.registry[sub.id := Registered(sub, true)],
         private := a.private[sub.easy.value := sub],
         added := a.added + {sub.easy.value})
  }

  function CancelTransfer(a: Agent, id: nat, c: Cancelled): Agent {
    Finish(a, id, CURLE_ABORTED_BY_CALLBACK, c)
  }

  function ResumeTransfer(a: Agent, id: nat, pauseCode: int, c: Cancelled): Agent {
    if id !in a.registry || !a.registry[id].active || pauseCode == CURLE_OK then a
    else Finish(a, id, pauseCode, c)
  }

  /** libcurl reports a finished easy handle. */
  function CompleteTransfer(a: Agent, easy: Handle, code: int, c: Cancelled): Agent {
    if easy !in a.private then a
    else
      var sub := a.private[easy];
      var removed := Remove(a, sub.id);
      if sub.id in a.registry && a.registry[sub.id].sub == sub
      then FinishDetached(removed, a.registry[sub.id], code, c) else removed
  }

  // ---- submissions and their handles

  function StreamsOf(sub: Submission): set<Handle> {
    (if sub.download.Some? then {sub.download.value} else {}) + (if sub.upload.Some? then {sub.upload.value} else {})
  }

  function Given(h: Option<Handle>): set<Handle> {
    if h.Some? then {h.value} else {}
  }

  predicate Disjoint(a: Submission, b: Submission) {
    Given(a.easy) !! Given(b.easy) && Given(a.result) !! Given(b.result) && StreamsOf(a) !! StreamsOf(b)
  }

  /** A submission does not use one stream object for both directions. */
  predicate Proper(sub: Submission) {
    sub.download.Some? && sub.upload.Some? ==> sub.download.value != sub.upload.value
  }

  predicate Untouched(l: Ledger, sub: Submission) {
    && (forall h :: h in Given(sub.easy) ==> h !in l.cleaned)
    && (forall h :: h in Given(sub.result) ==> h !in l.codes && h !in l.fired)
    && (forall h :: h in StreamsOf(sub) ==> h !in l.finished)
  }

  /** Result stored, easy handle destroyed, streams completed and waker fired, each exactly once. */
  predicate DoneOnce(l: Ledger, sub: Submission) {
    && (forall h :: h in Given(sub.easy) ==> l.cleaned[h] == 1)
    && (forall h :: h in Given(sub.result) ==> h in l.codes && l.fired[h] == 1)
    && (forall h :: h in StreamsOf(sub) ==> l.finished[h] == 1)
  }

  /** No handle outside this submission gains an outcome. */
  ghost predicate OnlyTouches(l: Ledger, l': Ledger, sub: Submission) {
    && (forall h :: h !in Given(sub.easy) ==> l'.cleaned[h] == l.cleaned[h])
    && (forall h :: h !in Given(sub.result) ==> (h in l'.codes <==> h in l.codes) && l'.fired[h] == l.fired[h])
    && (forall h :: h !in Given(sub.result) && h in l.codes ==> l'.codes[h] == l.codes[h])
    && (forall h :: h !in StreamsOf(sub) ==> l'.finished[h] == l.finished[h])
  }

  lemma StreamsCounted(l: Ledger, sub: Submission)
    ensures forall h :: h !in StreamsOf(sub) ==> CompleteStreams(l, sub).finished[h] == l.finished[h]
    ensures Proper(sub) ==> forall h :: h in StreamsOf(sub) ==> CompleteStreams(l, sub).finished[h] == l.finished[h] + 1
  {
  }

  lemma ResultTouches(l: Ledger, result: Option<Handle>, code: int)
    ensures forall h :: h !in Given(result) ==>
              var l' := SetResult(l, result, code);
              (h in l'.codes <==> h in l.codes) && (h in l.codes ==> l'.codes[h] == l.codes[h])
    ensures forall h :: h !in Given(result) ==> Wake(l, result).fired[h] == l.fired[h]
  {
  }

  lemma CleanUpTouches(l: Ledger, easy: Option<Handle>)
    ensures forall h :: h !in Given(easy) ==> CleanUp(l, easy).cleaned[h] == l.cleaned[h]
    ensures CleanUp(l, easy) == l.(cleaned := CleanUp(l, easy).cleaned)
  {
  }

  lemma SettleTouches(l: Ledger, sub: Submission, code: int)
    ensures OnlyTouches(l, Settle(l, sub, code), sub)
  {
    var stored := SetResult(l, sub.result, code);
    var completed := CompleteStreams(stored, sub);
    var cleaned := CleanUp(completed, sub.easy);
    ResultTouches(l, sub.result, code);
    StreamsCounted(stored, sub);
    CleanUpTouches(completed, sub.easy);
    ResultTouches(cleaned, sub.result, code);
  }

  /** Settling an untouched submission completes it exactly once, with the given code. */
  lemma SettleOnce(l: Ledger, sub: Submission, code: int)
    requires Untouched(l, sub) && Proper(sub)
    ensures DoneOnce(Settle(l, sub, code), sub)
    ensures sub.result.Some? ==> Settle(l, sub, code).codes[sub.result.value] == code
  {
    StreamsCounted(SetResult(l, sub.result, code), sub);
  }

  lemma OthersKept(l: Ledger, l': Ledger, sub: Submission, other: Submission)
    requires OnlyTouches(l, l', sub) && Disjoint(sub, other)
    ensures Untouched(l, other) ==> Untouched(l', other)
    ensures DoneOnce(l, other) ==> DoneOnce(l', other)
  {
  }

  // ---- the agent's own invariant

  /** Exactly the registered transfers are in the multi and reachable through their private pointer. */
  predicate AgentInv(a: Agent) {
    && (!a.up ==> a.registry == map[])
    && a.private.Keys == a.added
    && (forall id :: id in a.registry ==>
          && Acceptable(a.registry[id].sub) && a.registry[id].sub.id == id && a.registry[id].active
          && a.registry[id].sub.easy.value in a.added
          && a.private[a.registry[id].sub.easy.value] == a.registry[id].sub)
    && (forall e :: e in a.added ==>
          && a.private[e].easy == Some(e) && a.private[e].id in a.registry
          && a.registry[a.private[e].id].sub == a.private[e])
  }

  /** The submission is registered under its own ID. */
  predicate IsRegistered(a: Agent, sub: Submission) {
    sub.id in a.registry && a.registry[sub.id].sub == sub
  }

  /** The exact condition under which an EXECUTE enters the registry. */
  predicate Registers(a: Agent, sub: Submission, s: Setup) {
    Acceptable(sub) && s.memory && a.up && sub.id !in a.registry && s.optionSet && s.handleAdded
  }

  lemma RegisterKeepsInv(a: Agent, sub: Submission)
    requires AgentInv(a) && Acceptable(sub) && a.up && sub.id !in a.registry && sub.easy.value !in a.added
    ensures AgentInv(a.(registry := a.registry[sub.id := Registered(sub, true)],
                        private := a.private[sub.easy.value := sub],
                        added := a.added + {sub.easy.value}))
  {
  }

  lemma ForgetNew(private: map<Handle, Submission>, easy: Handle, sub: Submission)
    requires easy !in private
    ensures private[easy := sub] - {easy} == private
  {
  }

  /** Every failing branch leaves the agent as it was, but for the settled submission. */
  lemma ExecuteFails(a: Agent, sub: Submission, s: Setup, c: Cancelled) returns (code: int)
    requires a.private.Keys == a.added && Given(sub.easy) !! a.added && !Registers(a, sub, s)
    ensures ExecuteTransfer(a, sub, s, c) == a.(ledger := Settle(a.ledger, sub, code))
  {
    var a' := ExecuteTransfer(a, sub, s, c);
    if !Acceptable(sub) {
      code := CURLE_FAILED_INIT;
    } else if !s.memory {
      code := CURLE_OUT_OF_MEMORY;
    } else if !a.up || sub.id in a.registry || !s.optionSet {
      code := CURLE_FAILED_INIT;
    } else {
      code := FinalCode(sub, CURLE_FAILED_INIT, c);
      ForgetNew(a.private, sub.easy.value, sub);
    }
  }

  /** Whatever an EXECUTE does to the outcomes is one settling. */
  lemma ExecuteSettles(a: Agent, sub: Submission, s: Setup, c: Cancelled) returns (code: int)
    ensures var ledger := ExecuteTransfer(a, sub, s, c).ledger;
            ledger == a.ledger || ledger == Settle(a.ledger, sub, code)
  {
    code := if Acceptable(sub) && !s.memory then CURLE_OUT_OF_MEMORY
            else if Acceptable(sub) && a.up && sub.id !in a.registry && s.optionSet
            then FinalCode(sub, CURLE_FAILED_INIT, c)
            else CURLE_FAILED_INIT;
  }

  /** A dequeued EXECUTE enters the registry with no outcome, or is completed exactly once without entering it;
      an older transfer under the same ID, and every other handle, is untouched either way. */
  lemma ExecuteOutcome(a: Agent, sub: Submission, s: Setup, c: Cancelled)
    requires AgentInv(a) && Proper(sub) && Untouched(a.ledger, sub) && Given(sub.easy) !! a.added
    ensures var a' := ExecuteTransfer(a, sub, s, c);
            && AgentInv(a') && a'.up == a.up
            && OnlyTouches(a.ledger, a'.ledger, sub)
            && if Registers(a, sub, s)
               then a'.registry == a.registry[sub.id := Registered(sub, true)] && a'.ledger == a.ledger
               else a'.registry == a.registry && a'.added == a.added && DoneOnce(a'.ledger, sub)
  {
    if Registers(a, sub, s) {
      RegisterKeepsInv(a, sub);
    } else {
      var code := ExecuteFails(a, sub, s, c);
      SettleTouches(a.ledger, sub, code);
      SettleOnce(a.ledger, sub, code);
    }
  }

  /** Whatever removes a registered transfer completes exactly that transfer, exactly once. */
  lemma FinishOutcome(a: Agent, id: nat, code: int, c: Cancelled)
    requires AgentInv(a) && id in a.registry && Proper(a.registry[id].sub) && Untouched(a.ledger, a.registry[id].sub)
    ensures var a', sub := Finish(a, id, code, c), a.registry[id].sub;
            && AgentInv(a') && a'.up == a.up
            && a'.registry == a.registry - {id} && a'.added == a.added - {sub.easy.value}
            && OnlyTouches(a.ledger, a'.ledger, sub) && DoneOnce(a'.ledger, sub)
            && a'.ledger.codes[sub.result.value] == FinalCode(sub, code, c)
  {
    var sub := a.registry[id].sub;
    SettleTouches(a.ledger, sub, FinalCode(sub, code, c));
    SettleOnce(a.ledger, sub, FinalCode(sub, code, c));
  }

  /** A completion reported for a handle in the multi finishes the transfer that owns the handle. */
  lemma CompletionFindsOwner(a: Agent, easy: Handle, code: int, c: Cancelled)
    requires AgentInv(a) && easy in a.added
    ensures a.private[easy].id in a.registry && a.registry[a.private[easy].id].sub.easy == Some(easy)
    ensures CompleteTransfer(a, easy, code, c) == Finish(a, a.private[easy].id, code, c)
  {
  }
}
