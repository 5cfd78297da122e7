/**
 * Whole sessions of the voice-call agent: a sequence of events applied one
 * after another in arrival order, each atomically, from some state. The
 * transcript, the speaking indicator, the status and the transport requests
 * after any such sequence are given by reference definitions over the events
 * alone; the navigations are only bounded (none before a finish) and
 * computed for particular sessions.
 */
module Session {
  import opened Wrappers
  import opened Agent

  /** The state after the events `evs`, applied in order from `s`. */
  function Run(p: AgentProps, s: AgentState, evs: seq<Event>): AgentState
    decreases |evs|
  {
    if evs == [] then s else Run(p, Step(p, s, evs[0]), evs[1..])
  }

  lemma RunCons(p: AgentProps, s: AgentState, e: Event, rest: seq<Event>)
    ensures Run(p, s, [e] + rest) == Run(p, Step(p, s, e), rest)
  {
    assert ([e] + rest)[1..] == rest;
  }

  lemma {:induction false} RunAppend(p: AgentProps, s: AgentState, evs: seq<Event>, e: Event)
    ensures Run(p, s, evs + [e]) == Step(p, Run(p, s, evs), e)
    decreases |evs|
  {
    if evs == [] {
      assert evs + [e] == [e];
    } else {
      assert (evs + [e])[1..] == evs[1..] + [e];
      RunAppend(p, Step(p, s, evs[0]), evs[1..], e);
    }
  }

  /** The final transcripts among `evs`, in order, as transcript lines. */
  function Transcript(evs: seq<Event>): seq<SavedMessage>
    decreases |evs|
  {
    if evs == [] then [] else Transcribed(evs[0]) + Transcript(evs[1..])
  }

  /** The transcript only grows: it gains exactly the final transcripts, in arrival order. */
  lemma {:induction false} RunTranscript(p: AgentProps, s: AgentState, evs: seq<Event>)
    ensures Run(p, s, evs).messages == s.messages + Transcript(evs)
    decreases |evs|
  {
    if evs != [] {
      RunTranscript(p, Step(p, s, evs[0]), evs[1..]);
    }
  }

  /**
   * The speaking indicator is on after `evs` exactly when some speech-start
   * has no speech-end after it, or it was on already and no speech-end came.
   */
  lemma {:induction false} RunSpeaking(p: AgentProps, s: AgentState, evs: seq<Event>)
    ensures Run(p, s, evs).isSpeaking <==>
              (exists i :: 0 <= i < |evs| && evs[i].SpeechStart? && forall j :: i < j < |evs| ==> !evs[j].SpeechEnd?)
              || (s.isSpeaking && forall j :: 0 <= j < |evs| ==> !evs[j].SpeechEnd?)
    decreases |evs|
  {
    if evs != [] {
      var init, e := evs[..|evs| - 1], evs[|evs| - 1];
      assert evs == init + [e];
      RunAppend(p, s, init, e);
      RunSpeaking(p, s, init);
      if !e.SpeechStart? && !e.SpeechEnd? {
        if exists i :: 0 <= i < |evs| && evs[i].SpeechStart? && forall j :: i < j < |evs| ==> !evs[j].SpeechEnd? {
          var i :| 0 <= i < |evs| && evs[i].SpeechStart? && forall j :: i < j < |evs| ==> !evs[j].SpeechEnd?;
          assert init[i].SpeechStart? && forall j :: i < j < |init| ==> !init[j].SpeechEnd?;
        }
        if exists i :: 0 <= i < |init| && init[i].SpeechStart? && forall j :: i < j < |init| ==> !init[j].SpeechEnd? {
          var i :| 0 <= i < |init| && init[i].SpeechStart? && forall j :: i < j < |init| ==> !init[j].SpeechEnd?;
          assert evs[i].SpeechStart? && forall j :: i < j < |evs| ==> !evs[j].SpeechEnd?;
        }
      }
    }
  }

  /** The status after `evs`: set by the last status-changing event, else unchanged. */
  function StatusAfter(evs: seq<Event>, initially: CallStatus): CallStatus
    decreases |evs|
  {
    if evs == [] then initially
    else
      match evs[|evs| - 1]
      case CallStart => Active
      case CallEnd => Finished
      case CallClicked => Connecting
      case DisconnectClicked => Finished
      case _ => StatusAfter(evs[..|evs| - 1], initially)
  }

  lemma {:induction false} RunStatus(p: AgentProps, s: AgentState, evs: seq<Event>)
    ensures Run(p, s, evs).status == StatusAfter(evs, s.status)
    decreases |evs|
  {
    if evs != [] {
      var init, e := evs[..|evs| - 1], evs[|evs| - 1];
      assert evs == init + [e];
      RunAppend(p, s, init, e);
      RunStatus(p, s, init);
    }
  }

  predicate Finishes(e: Event) {
    e.CallEnd? || e.DisconnectClicked?
  }

  /** Without a call-end or a disconnect, a session that has not finished never navigates home. */
  lemma {:induction false} NoNavigationWithoutFinish(p: AgentProps, s: AgentState, evs: seq<Event>)
    requires s.status != Finished
    requires forall i :: 0 <= i < |evs| ==> !Finishes(evs[i])
    ensures Run(p, s, evs).status != Finished
    ensures Run(p, s, evs).navigations == s.navigations
    decreases |evs|
  {
    if evs != [] {
      assert !Finishes(evs[0]);
      NoNavigationWithoutFinish(p, Step(p, s, evs[0]), evs[1..]);
    }
  }

  /** Every request holds either a stop, or a start carrying this component's workflow, name and id. */
  ghost predicate RequestsFor(p: AgentProps, rs: seq<TransportRequest>) {
    forall q :: q in rs ==>
      q.Stop? || (p.interviewType == GenerateType && q == Start(p.workflowId, p.userName, p.userId))
  }

  lemma {:induction false} RunRequests(p: AgentProps, s: AgentState, evs: seq<Event>)
    requires RequestsFor(p, s.requests)
    ensures RequestsFor(p, Run(p, s, evs).requests)
    ensures s.requests <= Run(p, s, evs).requests
    decreases |evs|
  {
    if evs != [] {
      RunRequests(p, Step(p, s, evs[0]), evs[1..]);
    }
  }

  /** The transport requests the events `evs` issue, in order. */
  function Requests(p: AgentProps, evs: seq<Event>): seq<TransportRequest>
    decreases |evs|
  {
    if evs == [] then [] else Issued(p, evs[0]) + Requests(p, evs[1..])
  }

  /** How many Call clicks (`call`) or End clicks (`!call`) there are among `evs`. */
  function Clicks(evs: seq<Event>, call: bool): nat
    decreases |evs|
  {
    if evs == [] then 0
    else (if (call && evs[0].CallClicked?) || (!call && evs[0].DisconnectClicked?) then 1 else 0) + Clicks(evs[1..], call)
  }

  /** How many starts (`starts`) or stops (`!starts`) there are in `rs`. */
  function CountRequests(rs: seq<TransportRequest>, starts: bool): (n: nat)
    ensures n <= |rs|
    decreases |rs|
  {
    if rs == [] then 0 else (if rs[0].Start? == starts then 1 else 0) + CountRequests(rs[1..], starts)
  }

  lemma {:induction false} CountRequestsAppend(a: seq<TransportRequest>, b: seq<TransportRequest>, starts: bool)
    ensures CountRequests(a + b, starts) == CountRequests(a, starts) + CountRequests(b, starts)
    decreases |a|
  {
    if a != [] {
      assert (a + b)[0] == a[0];
      assert (a + b)[1..] == a[1..] + b;
      CountRequestsAppend(a[1..], b, starts);
    } else {
      assert a + b == b;
    }
  }

  /**
   * Over any event sequence the requests gain exactly those the events issue,
   * in order: one start per Call click for the "generate" type and none for
   * any other type, and one stop per End click.
   */
  lemma {:induction false} RunRequestsExact(p: AgentProps, s: AgentState, evs: seq<Event>)
    ensures Run(p, s, evs).requests == s.requests + Requests(p, evs)
    ensures CountRequests(Requests(p, evs), true) == if p.interviewType == GenerateType then Clicks(evs, true) else 0
    ensures CountRequests(Requests(p, evs), false) == Clicks(evs, false)
    decreases |evs|
  {
    if evs != [] {
      RunRequestsExact(p, Step(p, s, evs[0]), evs[1..]);
      CountRequestsAppend(Issued(p, evs[0]), Requests(p, evs[1..]), true);
      CountRequestsAppend(Issued(p, evs[0]), Requests(p, evs[1..]), false);
    }
  }

  /** A final transcript becomes the latest message; any other message leaves the latest message as it was. */
  lemma LatestAfterMessage(p: AgentProps, s: AgentState, m: TransportMessage)
    ensures LatestMessage(Step(p, s, MessageReceived(m)).messages)
              == if IsFinalTranscript(m) then Some(m.transcript) else LatestMessage(s.messages)
  {
  }

  /** A transport error changes nothing at all. */
  lemma ErrorChangesNothing(p: AgentProps, s: AgentState, error: string)
    ensures Step(p, s, TransportError(error)) == s
  {
  }

  /** Disconnecting twice leaves the status and the navigations of disconnecting once; only a second stop is issued. */
  lemma DisconnectTwice(p: AgentProps, s: AgentState)
    ensures Step(p, Step(p, s, DisconnectClicked), DisconnectClicked).status == Step(p, s, DisconnectClicked).status == Finished
    ensures Step(p, Step(p, s, DisconnectClicked), DisconnectClicked).navigations == Step(p, s, DisconnectClicked).navigations
    ensures Step(p, Step(p, s, DisconnectClicked), DisconnectClicked).requests == Step(p, s, DisconnectClicked).requests + [Stop]
  {
  }

  /** FINISHED is not terminal: the call button is shown again and clicking it goes back to CONNECTING. */
  lemma CallAfterFinished(p: AgentProps, s: AgentState)
    requires s.status == Finished
    ensures Render(s).control == CallButton(CallCaption, true)
    ensures Step(p, s, CallClicked).status == Connecting
    ensures Render(Step(p, s, CallClicked)).control == CallButton(WaitingCaption, false)
  {
  }

  /** A final transcript arriving after a disconnect triggers a second navigation home. */
  lemma NavigatesAgainOnLateTranscript(p: AgentProps, m: TransportMessage)
    requires IsFinalTranscript(m)
    ensures Run(p, Initial, [CallClicked, CallStart, DisconnectClicked, MessageReceived(m)]).navigations == 2
  {
    var s1 := Step(p, Initial, CallClicked);
    var s2 := Step(p, s1, CallStart);
    var s3 := Step(p, s2, DisconnectClicked);
    RunCons(p, Initial, CallClicked, [CallStart, DisconnectClicked, MessageReceived(m)]);
    RunCons(p, s1, CallStart, [DisconnectClicked, MessageReceived(m)]);
    RunCons(p, s2, DisconnectClicked, [MessageReceived(m)]);
    RunCons(p, s3, MessageReceived(m), []);
  }

  /**
   * The happy path: start, connect, three final transcripts, call end. The
   * transcript holds the three lines in order and the page navigates home once.
   */
  lemma HappyPath(p: AgentProps, a: TransportMessage, b: TransportMessage, c: TransportMessage)
    requires IsFinalTranscript(a) && IsFinalTranscript(b) && IsFinalTranscript(c)
    ensures Run(p, Initial, [CallClicked, CallStart, MessageReceived(a), MessageReceived(b), MessageReceived(c), CallEnd])
              == AgentState(Finished, [Saved(a), Saved(b), Saved(c)], false, 1, StartRequests(p))
  {
    var s1 := Step(p, Initial, CallClicked);
    var s2 := Step(p, s1, CallStart);
    var s3 := Step(p, s2, MessageReceived(a));
    var s4 := Step(p, s3, MessageReceived(b));
    var s5 := Step(p, s4, MessageReceived(c));
    RunCons(p, Initial, CallClicked, [CallStart, MessageReceived(a), MessageReceived(b), MessageReceived(c), CallEnd]);
    RunCons(p, s1, CallStart, [MessageReceived(a), MessageReceived(b), MessageReceived(c), CallEnd]);
    RunCons(p, s2, MessageReceived(a), [MessageReceived(b), MessageReceived(c), CallEnd]);
    RunCons(p, s3, MessageReceived(b), [MessageReceived(c), CallEnd]);
    RunCons(p, s4, MessageReceived(c), [CallEnd]);
    RunCons(p, s5, CallEnd, []);
  }
}
