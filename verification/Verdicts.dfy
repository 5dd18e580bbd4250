/** The two terminal codes of one transfer: its stream keeps the first it is given, its response headers the last. */
module Verdicts {
  import opened Messages
  import H = Headers
  import P = StreamProtocol
  import S = Stream

  /** A call of hcurl_stream_complete: the reactor's own, or that of a thread that found the queue closed. */
  datatype Completion = Completion(reactor: bool, code: int)

  /** The call is two critical sections: it marks the headers, then completes the stream. */
  datatype Section = Mark(call: Completion) | Finish(call: Completion)

  datatype Transfer = Transfer(headers: H.Headers, stream: S.Stream)

  function Apply(t: Transfer, section: Section): Transfer {
    match section
    case Mark(call) => t.(headers := H.MarkComplete(t.headers, call.code))
    case Finish(call) => t.(stream := S.Complete(t.stream, call.code))
  }

  function After(t: Transfer, sections: seq<Section>): Transfer {
    if sections == [] then t else Apply(After(t, sections[..|sections| - 1]), sections[|sections| - 1])
  }

  /** The calls in the order they marked the headers, and in the order they completed the stream. */
  function Marks(sections: seq<Section>): seq<Completion> {
    if sections == [] then []
    else
      var before, last := Marks(sections[..|sections| - 1]), sections[|sections| - 1];
      if last.Mark? then before + [last.call] else before
  }

  function Finishes(sections: seq<Section>): seq<Completion> {
    if sections == [] then []
    else
      var before, last := Finishes(sections[..|sections| - 1]), sections[|sections| - 1];
      if last.Finish? then before + [last.call] else before
  }

  lemma {:induction false} FirstAndLast(t: Transfer, sections: seq<Section>)
    requires t.stream.terminal.None?
    ensures After(t, sections).headers.terminalCode ==
            (var marks := Marks(sections); if marks == [] then t.headers.terminalCode else marks[|marks| - 1].code)
    ensures After(t, sections).stream.terminal ==
            (var finishes := Finishes(sections); if finishes == [] then None else Some(finishes[0].code))
  {
    if sections != [] {
      FirstAndLast(t, sections[..|sections| - 1]);
    }
  }

  /** The exact condition, over every interleaving: the two sides report different codes if and only if the last call to
      mark the headers brought another code than the first to complete the stream. */
  lemma SidesDiffer(t: Transfer, sections: seq<Section>)
    requires t.stream.terminal.None? && Marks(sections) != [] && Finishes(sections) != []
    ensures var t', marks, finishes := After(t, sections), Marks(sections), Finishes(sections);
            t'.stream.terminal != Some(t'.headers.terminalCode) <==> marks[|marks| - 1].code != finishes[0].code
  {
    FirstAndLast(t, sections);
  }

  /** Calls one after the other. */
  function InTurn(calls: seq<Completion>): seq<Section> {
    if calls == [] then [] else InTurn(calls[..|calls| - 1]) + [Mark(calls[|calls| - 1]), Finish(calls[|calls| - 1])]
  }

  lemma {:induction false} TurnCalls(calls: seq<Completion>)
    ensures Marks(InTurn(calls)) == calls && Finishes(InTurn(calls)) == calls
  {
    if calls != [] {
      var n := |calls| - 1;
      var before, call := InTurn(calls[..n]), calls[n];
      TurnCalls(calls[..n]);
      assert InTurn(calls)[..|InTurn(calls)| - 1] == before + [Mark(call)];
      assert (before + [Mark(call)])[..|before|] == before;
      assert calls[..n] + [call] == calls;
    }
  }

  /** One after the other, the sides agree if and only if the last call brought the code of the first. */
  lemma AgreeInTurn(t: Transfer, calls: seq<Completion>)
    requires t.stream.terminal.None? && calls != []
    ensures var t' := After(t, InTurn(calls));
            t'.stream.terminal == Some(t'.headers.terminalCode) <==> calls[|calls| - 1].code == calls[0].code
  {
    TurnCalls(calls);
    FirstAndLast(t, InTurn(calls));
  }

  // ---- the calls the program makes

  /** Who is about to complete the stream. */
  datatype Who = Reactor | Flusher | Closing(p: Pid)

  /** The stream protocol with its response headers. `marked` are the calls between their two sections, `sections` all
      that were executed, `verdict` the reactor's code once it has marked. */
  datatype State = State(t: P.State, headers: H.Headers, marked: set<Who>, sections: seq<Section>, verdict: Option<int>)

  datatype Action = MarkHeaders(who: Who) | HeaderEvent(e: H.Event) | Go(a: P.Action)

  /** The call this thread is in, if any. */
  function CallOf(t: P.State, who: Who): Option<Completion> {
    match who
    case Reactor => if t.agent.Completing? then Some(Completion(true, t.agent.code)) else None
    case Flusher => if t.client.GivingUp? then Some(Completion(false, CURLE_ABORTED_BY_CALLBACK)) else None
    case Closing(p) =>
      if p in t.closers && t.closers[p].GivingUpCancel? then Some(Completion(false, CURLE_ABORTED_BY_CALLBACK))
        else None
  }

  /** The thread whose call this step of the protocol finishes. */
  function Finisher(a: P.Action): Option<Who> {
    match a
    case ByAgent(b) => if b.CompleteStream? then Some(Reactor) else None
    case ByClient(b) => if b.GiveUp? then Some(Flusher) else None
    case ByCloser(p, b) => if b.GiveUpCancel? then Some(Closing(p)) else None
  }

  predicate Enabled(s: State, a: Action) {
    match a
    case MarkHeaders(who) => CallOf(s.t, who).Some? && who !in s.marked
    case HeaderEvent(e) => !e.Complete?
    case Go(b) => P.Enabled(s.t, b) && (Finisher(b).Some? ==>
                                        Finisher(b).value in s.marked && CallOf(s.t, Finisher(b).value).Some?)
  }

  function Step(s: State, a: Action): State
    requires Enabled(s, a)
  {
    match a
    case MarkHeaders(who) =>
      var call := CallOf(s.t, who).value;
      s.(headers := H.MarkComplete(s.headers, call.code),
         marked := s.marked + {who},
         sections := s.sections + [Mark(call)],
         verdict := if call.reactor then Some(call.code) else s.verdict)
    case HeaderEvent(e) => s.(headers := H.Apply(s.headers, e))
    case Go(b) =>
      var t' := P.Apply(s.t, b);
      if Finisher(b).None? then s.(t := t')
      else
        var who := Finisher(b).value;
        s.(t := t', marked := s.marked - {who}, sections := s.sections + [Finish(CallOf(s.t, who).value)])
  }

  /** The reactor completes a stream once, with one code; everybody else brings CURLE_ABORTED_BY_CALLBACK. */
  predicate Real(sections: seq<Section>, verdict: Option<int>) {
    forall i :: 0 <= i < |sections| ==> IsReal(sections[i].call, verdict)
  }

  predicate IsReal(call: Completion, verdict: Option<int>) {
    if call.reactor then verdict == Some(call.code) else call.code == CURLE_ABORTED_BY_CALLBACK
  }

  /** The reactor is between its two sections, past them, or has not begun. */
  predicate Once(s: State) {
    && (Reactor in s.marked ==> s.t.agent.Completing? && s.verdict == Some(s.t.agent.code))
    && (s.verdict.Some? ==> Reactor in s.marked || s.t.agent.Ended?)
  }

  predicate Recorded(s: State) {
    && s.headers.terminalCode == (var marks := Marks(s.sections); if marks == [] then CURLE_OK
                                  else marks[|marks| - 1].code)
    && s.t.s.terminal == (var finishes := Finishes(s.sections); if finishes == [] then None else Some(finishes[0].code))
  }

  predicate Inv(s: State) {
    Real(s.sections, s.verdict) && Once(s) && Recorded(s)
  }

  // ---- every step

  /** Only a completion sets the terminal code, and only the reactor's ends its own call. */
  predicate Calm(t: P.State, t': P.State) {
    && t'.s.terminal == t.s.terminal
    && (t.agent.Completing? ==> t'.agent == t.agent) && (t.agent.Ended? ==> t'.agent.Ended?)
  }

  lemma AgentCalm(t: P.State, b: P.AgentAction, t': P.State)
    requires P.AgentEnabled(t, b) && t' == P.AgentApply(t, b) && !b.CompleteStream?
    ensures Calm(t, t')
  {
  }

  lemma AttemptCalm(t: P.State, memory: bool, t': P.State)
    requires t.client.Trying? && t' == P.Attempt(t, memory)
    ensures Calm(t, t')
  {
    match t.client.call
    case Read => P.ReadEffect(t);
    case Write(data) => P.WriteEffect(t, data, memory);
    case Finish =>
  }

  lemma MoveCalm(t: P.State, b: P.ClientAction, t': P.State)
    requires P.ClientEnabled(t, b) && t' == P.ClientApply(t, b)
    requires b.Begin? || b.Wake? || b.Interrupt? || b.Abandon? || b.Restore?
    ensures Calm(t, t')
  {
  }

  lemma ControlCalm(t: P.State, call: P.Call, rewait: bool, reply: P.Reply)
    ensures Calm(t, P.AfterTake(t, call, rewait)) && Calm(t, P.AfterReply(t, call, rewait, reply))
  {
  }

  lemma ClientCalm(t: P.State, b: P.ClientAction, t': P.State)
    requires P.ClientEnabled(t, b) && t' == P.ClientApply(t, b) && !b.GiveUp?
    ensures Calm(t, t')
  {
    match b
    case Try(memory) => AttemptCalm(t, memory, t');
    case Wait(w) => P.WaitEffect(t, w);
    case Flush => ControlCalm(t, t.client.call, t.client.rewait, P.Retry);
    case SendResume(reply) => ControlCalm(t, t.client.call, t.client.rewait, reply);
    case _ => MoveCalm(t, b, t');
  }

  lemma CloserCalm(t: P.State, p: Pid, b: P.CloserAction, t': P.State)
    requires P.CloserEnabled(t, p, b) && t' == P.CloserApply(t, p, b) && !b.GiveUpCancel?
    ensures Calm(t, t')
  {
  }

  lemma OtherCalm(t: P.State, b: P.Action, t': P.State)
    requires P.Enabled(t, b) && t' == P.Apply(t, b) && Finisher(b).None?
    ensures Calm(t, t')
  {
    match b
    case ByAgent(c) => AgentCalm(t, c, t');
    case ByClient(c) => ClientCalm(t, c, t');
    case ByCloser(p, c) => CloserCalm(t, p, c, t');
  }

  lemma AgentFinishes(t: P.State, t': P.State)
    requires t.agent.Completing? && t' == P.AgentApply(t, P.CompleteStream)
    ensures t'.s.terminal == if t.s.terminal.Some? then t.s.terminal else Some(t.agent.code)
    ensures t'.agent.Ended?
  {
  }

  lemma OthersFinish(t: P.State, b: P.Action, t': P.State)
    requires P.Enabled(t, b) && t' == P.Apply(t, b)
    requires b == P.ByClient(P.GiveUp) || (b.ByCloser? && b.d.GiveUpCancel?)
    ensures t'.s.terminal == if t.s.terminal.Some? then t.s.terminal else Some(CURLE_ABORTED_BY_CALLBACK)
    ensures t'.agent == t.agent
  {
  }

  lemma FinishEffect(t: P.State, b: P.Action, t': P.State)
    requires P.Enabled(t, b) && t' == P.Apply(t, b) && Finisher(b).Some? && CallOf(t, Finisher(b).value).Some?
    ensures t'.s.terminal == if t.s.terminal.Some? then t.s.terminal else Some(CallOf(t, Finisher(b).value).value.code)
    ensures if Finisher(b).value.Reactor? then t'.agent.Ended? else t'.agent == t.agent
  {
    if b.ByAgent? {
      AgentFinishes(t, t');
    } else {
      OthersFinish(t, b, t');
    }
  }

  lemma SectionAdded(sections: seq<Section>, section: Section)
    ensures Marks(sections + [section]) == if section.Mark? then Marks(sections) + [section.call] else Marks(sections)
    ensures Finishes(sections + [section]) == if section.Finish? then Finishes(sections) + [section.call]
            else Finishes(sections)
  {
    assert (sections + [section])[..|sections|] == sections;
  }

  lemma MarkKeepsInv(s: State, who: Who)
    requires Inv(s) && Enabled(s, MarkHeaders(who))
    ensures Inv(Step(s, MarkHeaders(who)))
  {
    SectionAdded(s.sections, Mark(CallOf(s.t, who).value));
  }

  lemma FinishKeepsInv(s: State, b: P.Action)
    requires Inv(s) && Enabled(s, Go(b)) && Finisher(b).Some?
    ensures Inv(Step(s, Go(b)))
  {
    var who := Finisher(b).value;
    FinishEffect(s.t, b, P.Apply(s.t, b));
    SectionAdded(s.sections, Finish(CallOf(s.t, who).value));
  }

  lemma HeaderKeepsCode(h: H.Headers, e: H.Event)
    requires !e.Complete?
    ensures H.Apply(h, e).terminalCode == h.terminalCode
  {
  }

  lemma StepKeepsInv(s: State, a: Action)
    requires Inv(s) && Enabled(s, a)
    ensures Inv(Step(s, a))
  {
    match a
    case MarkHeaders(who) => MarkKeepsInv(s, who);
    case HeaderEvent(e) => HeaderKeepsCode(s.headers, e);
    case Go(b) =>
      if Finisher(b).Some? {
        FinishKeepsInv(s, b);
      } else {
        OtherCalm(s.t, b, P.Apply(s.t, b));
      }
  }

  /** Response headers belong to the download stream; an upload has none. */
  function Start(capacity: nat): State {
    State(P.Start(S.Download, capacity), H.FRESH, {}, [], None)
  }

  ghost predicate StepAt(run: seq<State>, acts: seq<Action>, i: nat)
    requires i < |acts| && |run| == |acts| + 1
  {
    Enabled(run[i], acts[i]) && run[i + 1] == Step(run[i], acts[i])
  }

  ghost predicate IsRun(capacity: nat, run: seq<State>, acts: seq<Action>) {
    && capacity > 0 && |run| == |acts| + 1 && run[0] == Start(capacity)
    && forall i :: 0 <= i < |acts| ==> StepAt(run, acts, i)
  }

  lemma {:induction false} RunKeepsInv(capacity: nat, run: seq<State>, acts: seq<Action>, i: nat)
    requires IsRun(capacity, run, acts) && i < |run|
    ensures Inv(run[i])
  {
    if i > 0 {
      var k := i - 1;
      RunKeepsInv(capacity, run, acts, k);
      assert StepAt(run, acts, k);
      StepKeepsInv(run[k], acts[k]);
    }
  }

  lemma MarksAreReal(sections: seq<Section>, verdict: Option<int>)
    requires Real(sections, verdict)
    ensures forall i :: 0 <= i < |Marks(sections)| ==> IsReal(Marks(sections)[i], verdict)
    ensures forall i :: 0 <= i < |Finishes(sections)| ==> IsReal(Finishes(sections)[i], verdict)
  {
    if sections != [] {
      MarksAreReal(sections[..|sections| - 1], verdict);
    }
  }

  /** The exact condition in the program, over every run of a stream with its headers: the codes differ if and only if
      the reactor's was not CURLE_ABORTED_BY_CALLBACK and the reactor was the last to mark the headers but not the
      first to complete the stream, or the other way round. */
  lemma SidesOfTransfer(capacity: nat, run: seq<State>, acts: seq<Action>, i: nat)
    requires IsRun(capacity, run, acts) && i < |run|
    requires Marks(run[i].sections) != [] && Finishes(run[i].sections) != []
    ensures var s, marks, finishes := run[i], Marks(run[i].sections), Finishes(run[i].sections);
            s.t.s.terminal != Some(s.headers.terminalCode) <==>
              && s.verdict.Some? && s.verdict.value != CURLE_ABORTED_BY_CALLBACK
              && marks[|marks| - 1].reactor != finishes[0].reactor
  {
    RunKeepsInv(capacity, run, acts, i);
    MarksAreReal(run[i].sections, run[i].verdict);
  }

  // ---- a transfer with two verdicts

  const CURLE_RECV_ERROR: int := 56

  /** The reactor shuts down after a fatal error while a reader's flush finds the queue closed. */
  function Scenario(k: nat): Action {
    if k == 0 then Go(P.ByAgent(P.CallDownload([0], true)))
    else if k == 1 then Go(P.ByAgent(P.SetPause(true)))
    else if k == 2 then Go(P.ByClient(P.Begin(P.Read)))
    else if k == 3 then Go(P.ByClient(P.Try(true)))
    else if k == 4 then Go(P.ByClient(P.Flush))
    else if k == 5 then Go(P.ByClient(P.SendResume(P.Gone)))
    else if k == 6 then MarkHeaders(Flusher)
    else if k == 7 then Go(P.ByAgent(P.CurlDone(CURLE_RECV_ERROR)))
    else if k == 8 then Go(P.ByAgent(P.Normalize(true, false)))
    else if k == 9 then MarkHeaders(Reactor)
    else if k == 10 then Go(P.ByClient(P.GiveUp))
    else Go(P.ByAgent(P.CompleteStream))
  }

  function Stage(k: nat): State {
    var s := Start(1);
    var full := s.t.(s := s.t.s.(queue := [S.Chunk([0], 0)], paused := true), entered := [0]);
    var read := full.(s := s.t.s.(paused := true), curlPaused := true, passed := [0]);
    if k == 0 then s
    else if k == 1 then s.(t := full.(agent := P.Pausing))
    else if k == 2 then s.(t := full.(curlPaused := true))
    else if k == 3 then s.(t := full.(curlPaused := true, client := P.Trying(P.Read)))
    else if k == 4 then s.(t := read.(client := P.Flushing(P.Read, false, false)))
    else Split(k, s, read.(s := s.t.s))
  }

  function Split(k: nat, s: State, t: P.State): State {
    var left, right := Completion(false, CURLE_ABORTED_BY_CALLBACK), Completion(true, CURLE_RECV_ERROR);
    var quitting := s.(t := t.(client := P.GivingUp(P.Read, false)));
    var one := quitting.(headers := H.MarkComplete(H.FRESH, left.code), marked := {Flusher}, sections := [Mark(left)]);
    var two := one.(headers := H.MarkComplete(H.FRESH, right.code), marked := {Flusher, Reactor},
                    sections := [Mark(left), Mark(right)], verdict := Some(right.code));
    if k == 5 then s.(t := t.(client := P.Sending(P.Read, false)))
    else if k == 6 then quitting
    else if k == 7 then one
    else if k == 8 then one.(t := one.t.(agent := P.Detached(right.code)))
    else if k == 9 then one.(t := one.t.(agent := P.Completing(right.code)))
    else if k == 10 then two.(t := one.t.(agent := P.Completing(right.code)))
    else
      var half := one.t.(s := t.s.(terminal := Some(left.code)), client := P.Free, agent := P.Completing(right.code));
      if k == 11 then two.(t := half, marked := {Reactor}, sections := [Mark(left), Mark(right), Finish(left)])
      else two.(t := half.(agent := P.Ended), marked := {},
                sections := [Mark(left), Mark(right), Finish(left), Finish(right)])
  }

  lemma ReadStage(k: nat)
    requires k < 4
    ensures Enabled(Stage(k), Scenario(k)) && Step(Stage(k), Scenario(k)) == Stage(k + 1)
  {
  }

  lemma QuitStage(k: nat)
    requires 4 <= k < 7
    ensures Enabled(Stage(k), Scenario(k)) && Step(Stage(k), Scenario(k)) == Stage(k + 1)
  {
  }

  lemma FailStage(k: nat)
    requires 7 <= k < 10
    ensures Enabled(Stage(k), Scenario(k)) && Step(Stage(k), Scenario(k)) == Stage(k + 1)
  {
  }

  lemma FinishStage(k: nat)
    requires 10 <= k < 12
    ensures Enabled(Stage(k), Scenario(k)) && Step(Stage(k), Scenario(k)) == Stage(k + 1)
  {
  }

  /** It happens: the headers report the fatal error, the stream CURLE_ABORTED_BY_CALLBACK. */
  lemma TwoVerdicts()
    ensures exists run, acts :: IsRun(1, run, acts) && Disagrees(run[|acts|])
  {
    var run, acts := seq(13, k requires 0 <= k < 13 => Stage(k)), seq(12, k requires 0 <= k < 12 => Scenario(k));
    forall k | 0 <= k < 12
      ensures StepAt(run, acts, k)
    {
      if k < 4 {
        ReadStage(k);
      } else if k < 7 {
        QuitStage(k);
      } else if k < 10 {
        FailStage(k);
      } else {
        FinishStage(k);
      }
    }
    assert IsRun(1, run, acts) && Disagrees(run[|acts|]);
  }

  predicate Disagrees(s: State) {
    && s.t.agent.Ended? && s.marked == {}
    && s.t.s.terminal == Some(CURLE_ABORTED_BY_CALLBACK) && s.headers.terminalCode == CURLE_RECV_ERROR
  }
}
