/**
 * The voice-call agent (components/Agent.tsx): a call status, a transcript
 * that final transcripts are appended to, a speaking indicator, the requests
 * issued to the voice transport and the navigations home the page asks for.
 *
 * `Handle`, `NavigationEffect` and `Step` are the specification of one event:
 * the handler's state update followed by the navigation effect. `AgentView`
 * holds the same state in fields and implements each handler as a method
 * proved against `Step`. The render values are functions of the state.
 */
module Agent {
  import opened Wrappers

  datatype CallStatus = Inactive | Connecting | Active | Finished

  datatype Role = User | System | Assistant

  /** One line of the transcript. */
  datatype SavedMessage = SavedMessage(role: Role, content: string)

  /** The fields of a transport `message` event that the handler reads. */
  datatype TransportMessage = TransportMessage(kind: string, transcriptType: string, role: Role, transcript: string)

  /** A call made into the voice transport: a start with the session variables, or a stop. */
  datatype TransportRequest = Start(workflowId: string, username: string, userid: string) | Stop

  /** The component's props, and the workflow id read from the environment. */
  datatype AgentProps = AgentProps(userName: string, userId: string, interviewType: string, workflowId: string)

  /** Everything that can happen to the component: transport events and the two buttons. */
  datatype Event =
    | CallStart
    | CallEnd
    | MessageReceived(message: TransportMessage)
    | SpeechStart
    | SpeechEnd
    | TransportError(error: string)
    | CallClicked
    | DisconnectClicked

  /** The component's state: its state cells plus the calls it made to the outside. */
  datatype AgentState = AgentState(
    status: CallStatus,
    messages: seq<SavedMessage>,
    isSpeaking: bool,
    navigations: nat,
    requests: seq<TransportRequest>)

  const Initial := AgentState(Inactive, [], false, 0, [])

  const GenerateType := "generate"

  predicate IsFinalTranscript(m: TransportMessage) {
    m.kind == "transcript" && m.transcriptType == "final"
  }

  function Saved(m: TransportMessage): SavedMessage {
    SavedMessage(m.role, m.transcript)
  }

  /** The transcript lines one event contributes: one for a final transcript, none otherwise. */
  function Transcribed(e: Event): (r: seq<SavedMessage>)
    ensures |r| <= 1
    ensures |r| == 1 <==> e.MessageReceived? && IsFinalTranscript(e.message)
  {
    if e.MessageReceived? && IsFinalTranscript(e.message) then [Saved(e.message)] else []
  }

  /** The start request `handleCall` issues, if any: only for the "generate" interview type. */
  function StartRequests(p: AgentProps): (r: seq<TransportRequest>)
    ensures |r| <= 1
    ensures r != [] <==> p.interviewType == GenerateType
    ensures forall q :: q in r ==> q == Start(p.workflowId, p.userName, p.userId)
  {
    if p.interviewType == GenerateType then [Start(p.workflowId, p.userName, p.userId)] else []
  }

  /** The transport requests one event issues: a Call click's start, if any, or an End click's stop. */
  function Issued(p: AgentProps, e: Event): (r: seq<TransportRequest>)
    ensures |r| <= 1
    ensures r == [Stop] <==> e.DisconnectClicked?
    ensures r != [] ==> e.CallClicked? || e.DisconnectClicked?
  {
    if e.CallClicked? then StartRequests(p) else if e.DisconnectClicked? then [Stop] else []
  }

  /** The state update of each handler, before the navigation effect runs. */
  function Handle(p: AgentProps, s: AgentState, e: Event): AgentState {
    match e
    case CallStart => s.(status := Active)
    case CallEnd => s.(status := Finished)
    case MessageReceived(m) => s.(messages := s.messages + Transcribed(e))
    case SpeechStart => s.(isSpeaking := true)
    case SpeechEnd => s.(isSpeaking := false)
    case TransportError(_) => s
    case CallClicked => s.(status := Connecting, requests := s.requests + StartRequests(p))
    case DisconnectClicked => s.(status := Finished, requests := s.requests + [Stop])
  }

  /**
   * Whether the navigation effect asks for "/" when the state goes from
   * `before` to `after`: the effect re-runs only when one of its
   * dependencies changed, and it navigates when the status is FINISHED.
   */
  predicate NavigationDue(before: AgentState, after: AgentState) {
    after.status == Finished && (after.status != before.status || after.messages != before.messages)
  }

  function NavigationEffect(before: AgentState, after: AgentState): AgentState {
    if NavigationDue(before, after) then after.(navigations := after.navigations + 1) else after
  }

  /** One event: the handler's update, then the navigation effect. */
  function Step(p: AgentProps, s: AgentState, e: Event): (r: AgentState)
    ensures r.messages == s.messages + Transcribed(e)
    ensures r.navigations == s.navigations + (if NavigationDue(s, r) then 1 else 0)
    ensures r.requests == s.requests + Issued(p, e)
  {
    NavigationEffect(s, Handle(p, s, e))
  }

  /** `messages[messages.length - 1]?.content`: absent exactly when there are no messages. */
  function LatestMessage(messages: seq<SavedMessage>): (r: Option<string>)
    ensures r.None? <==> messages == []
    ensures r.Some? ==> r.value == messages[|messages| - 1].content
  {
    if messages == [] then None else Some(messages[|messages| - 1].content)
  }

  /** No call is in progress: neither connecting nor active. */
  function IsCallInactiveOrFinished(status: CallStatus): (b: bool)
    ensures b <==> status != Connecting && status != Active
  {
    status == Inactive || status == Finished
  }

  /** The button under the call view: the call button with its caption and ping animation, or the end button. */
  datatype CallControl = CallButton(caption: string, pingHidden: bool) | EndButton

  const CallCaption := "Call"
  const WaitingCaption := ". . ."

  function ControlFor(status: CallStatus): (r: CallControl)
    ensures r.EndButton? <==> status == Active
    ensures r.CallButton? ==> (r.caption == CallCaption <==> IsCallInactiveOrFinished(status))
    ensures r.CallButton? ==> (r.caption == WaitingCaption <==> status == Connecting)
    ensures r.CallButton? ==> (r.pingHidden <==> status != Connecting)
  {
    if status != Active then
      CallButton(if IsCallInactiveOrFinished(status) then CallCaption else WaitingCaption, status != Connecting)
    else EndButton
  }

  /** What the component shows: the speaking animation, the latest transcript line if any, the control. */
  datatype AgentScreen = AgentScreen(speaking: bool, transcript: Option<string>, control: CallControl)

  function Render(s: AgentState): (v: AgentScreen)
    ensures v.speaking == s.isSpeaking
    ensures v.transcript.Some? <==> |s.messages| > 0
    ensures v.control.EndButton? <==> s.status == Active
    ensures v.transcript == LatestMessage(s.messages)
    ensures v.control == ControlFor(s.status)
  {
    AgentScreen(s.isSpeaking, LatestMessage(s.messages), ControlFor(s.status))
  }

  /** The component instance: its state cells are fields, its handlers methods. */
  class AgentView {
    const props: AgentProps
    var callStatus: CallStatus
    var messages: seq<SavedMessage>
    var isSpeaking: bool
    var navigations: nat
    var requests: seq<TransportRequest>

    function Snapshot(): AgentState
      reads this
    {
      AgentState(callStatus, messages, isSpeaking, navigations, requests)
    }

    /** Mounting: every cell at its initial value; the first run of the navigation effect sees INACTIVE. */
    constructor (props: AgentProps)
      ensures this.props == props
      ensures Snapshot() == Initial
    {
      this.props := props;
      callStatus := Inactive;
      messages := [];
      isSpeaking := false;
      navigations := 0;
      requests := [];
    }

    /** The navigation effect, run after a handler with the dependencies it saw before. */
    method RunNavigationEffect(prevStatus: CallStatus, prevMessages: seq<SavedMessage>)
      modifies this`navigations
      ensures navigations == old(navigations) +
                (if callStatus == Finished && (callStatus != prevStatus || messages != prevMessages) then 1 else 0)
    {
      if callStatus == Finished && (callStatus != prevStatus || messages != prevMessages) {
        navigations := navigations + 1;
      }
    }

    method OnCallStart()
      modifies this
      ensures callStatus == Active
      ensures messages == old(messages) && isSpeaking == old(isSpeaking)
      ensures requests == old(requests) && navigations == old(navigations)
      ensures Snapshot() == Step(props, old(Snapshot()), CallStart)
    {
      var prevStatus, prevMessages := callStatus, messages;
      callStatus := Active;
      RunNavigationEffect(prevStatus, prevMessages);
    }

    method OnCallEnd()
      modifies this
      ensures callStatus == Finished
      ensures messages == old(messages) && isSpeaking == old(isSpeaking) && requests == old(requests)
      ensures navigations == old(navigations) + (if old(callStatus) != Finished then 1 else 0)
      ensures Snapshot() == Step(props, old(Snapshot()), CallEnd)
    {
      var prevStatus, prevMessages := callStatus, messages;
      callStatus := Finished;
      RunNavigationEffect(prevStatus, prevMessages);
    }

    method OnMessage(m: TransportMessage)
      modifies this
      ensures messages == if IsFinalTranscript(m) then old(messages) + [SavedMessage(m.role, m.transcript)] else old(messages)
      ensures callStatus == old(callStatus) && isSpeaking == old(isSpeaking) && requests == old(requests)
      ensures navigations == old(navigations) + (if IsFinalTranscript(m) && callStatus == Finished then 1 else 0)
      ensures Snapshot() == Step(props, old(Snapshot()), MessageReceived(m))
    {
      var prevStatus, prevMessages := callStatus, messages;
      if IsFinalTranscript(m) {
        messages := messages + [Saved(m)];
      }
      RunNavigationEffect(prevStatus, prevMessages);
    }

    method OnSpeechStart()
      modifies this
      ensures isSpeaking
      ensures callStatus == old(callStatus) && messages == old(messages)
      ensures requests == old(requests) && navigations == old(navigations)
      ensures Snapshot() == Step(props, old(Snapshot()), SpeechStart)
    {
      isSpeaking := true;
    }

    method OnSpeechEnd()
      modifies this
      ensures !isSpeaking
      ensures callStatus == old(callStatus) && messages == old(messages)
      ensures requests == old(requests) && navigations == old(navigations)
      ensures Snapshot() == Step(props, old(Snapshot()), SpeechEnd)
    {
      isSpeaking := false;
    }

    /** A transport error is only logged: no state cell changes. */
    method OnError(error: string)
      ensures Snapshot() == old(Snapshot())
      ensures Snapshot() == Step(props, old(Snapshot()), TransportError(error))
    {
    }

    method HandleCall()
      modifies this
      ensures callStatus == Connecting
      ensures requests == old(requests) + StartRequests(props)
      ensures messages == old(messages) && isSpeaking == old(isSpeaking) && navigations == old(navigations)
      ensures Snapshot() == Step(props, old(Snapshot()), CallClicked)
    {
      var prevStatus, prevMessages := callStatus, messages;
      callStatus := Connecting;
      requests := requests + StartRequests(props);
      RunNavigationEffect(prevStatus, prevMessages);
    }

    method HandleDisconnect()
      modifies this
      ensures callStatus == Finished
      ensures requests == old(requests) + [Stop]
      ensures messages == old(messages) && isSpeaking == old(isSpeaking)
      ensures navigations == old(navigations) + (if old(callStatus) != Finished then 1 else 0)
      ensures Snapshot() == Step(props, old(Snapshot()), DisconnectClicked)
    {
      var prevStatus, prevMessages := callStatus, messages;
      callStatus := Finished;
      requests := requests + [Stop];
      RunNavigationEffect(prevStatus, prevMessages);
    }
  }
}
