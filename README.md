# Interview UI: call-session agent and interview card

This project models the two pieces of deterministic logic in the mock-interview
web application's front end:

- **The voice-call agent** (`components/Agent.tsx`). It holds a call status
  (INACTIVE, CONNECTING, ACTIVE, FINISHED), a transcript of `{role, content}`
  lines and a speaking indicator. It reacts to the voice transport's events
  (`call-start`, `call-end`, `message`, `speech-start`, `speech-end`, `error`)
  and to the Call and End buttons. After every change of status or transcript,
  an effect sends the page home ("/") when the status is FINISHED. (The effect
  also depends on props and the router. The model keeps those constant; see
  "## Left out".) The
  component is the class `Agent.AgentView`: its state cells are fields, and each
  handler is a method whose contract gives the new value of every field. Each
  method is also proved equal to the pure function `Agent.Step`. The module
  `Session` applies `Step` to whole event sequences. It gives reference
  definitions over the events for the transcript, the speaking indicator, the
  status and the transport requests after any sequence. The navigations are
  only bounded there: none happen before a call-end or an End click. Exact
  navigation counts are proved for particular sessions.
- **The interview card** (`components/InterviewCard.tsx`). It is a total decision
  table over the display mode (feedback, take or view), the interview id and the
  feedback record, if any. It gives the button's link and caption, the summary
  message, the score line, the mode badge and the type badge. JavaScript
  truthiness is kept as written. `finalAssessment || …` treats an empty
  assessment as missing. `totalScore || "---"` shows the placeholder for a
  score of 0.

Calls into the voice transport are recorded as a trace of `Start(workflow,
username, userid)` and `Stop` requests. `router.push("/")` is recorded as a count
of navigations. The feedback service's answer is an input.

Behaviour the code has, which the model keeps:

- The status is not forward-only. `onCallStart` forces ACTIVE from any state.
  The Call button is shown whenever the status is not ACTIVE, FINISHED included,
  and clicking it goes back to CONNECTING (`Session.CallAfterFinished`).
- Navigation home is not once per session. The effect re-runs whenever the
  transcript or the status changes while FINISHED. So a final transcript that
  arrives after a disconnect navigates a second time
  (`Session.NavigatesAgainOnLateTranscript`).
- `handleDisconnect` itself, applied while FINISHED, changes neither the status
  nor the navigation count, but it does issue another stop
  (`Session.DisconnectTwice`). This is a property of the handler. The page
  cannot produce it by clicking, because the End button is rendered only
  while ACTIVE.
- There is no error status. A transport error changes nothing
  (`Session.ErrorChangesNothing`).
- `handleCall` moves to CONNECTING for every interview type. It issues a start
  only for the type "generate". For any other type the call stays in
  CONNECTING until a transport event arrives.

## Model

| member | source | states |
|---|---|---|
| `Agent.AgentView.constructor` | components/Agent.tsx:29-31 | the component mounts INACTIVE, with an empty transcript, not speaking, no requests and no navigation |
| `Agent.AgentView.OnCallStart` | components/Agent.tsx:35-37 | the status becomes ACTIVE from any state; the transcript, speaking flag, requests and navigations are unchanged |
| `Agent.AgentView.OnCallEnd` | components/Agent.tsx:39-41 | the status becomes FINISHED from any state; nothing else changes except one navigation home, exactly when the status was not already FINISHED |
| `Agent.AgentView.OnMessage` | components/Agent.tsx:43-48 | a message of type "transcript" with transcriptType "final" appends exactly `{role, transcript}` at the end and keeps earlier lines in order; any other message leaves the transcript unchanged; status, speaking flag and requests never change |
| `Agent.AgentView.OnSpeechStart` | components/Agent.tsx:50-53 | the speaking flag becomes true; status, transcript, requests and navigations are unchanged |
| `Agent.AgentView.OnSpeechEnd` | components/Agent.tsx:55-58 | the speaking flag becomes false; status, transcript, requests and navigations are unchanged |
| `Agent.AgentView.OnError` | components/Agent.tsx:60-62 | no state changes at all; there is no error status |
| `Agent.AgentView.RunNavigationEffect` | components/Agent.tsx:81-83 | one navigation to "/" is requested exactly when the status is FINISHED and the status or the transcript changed |
| `Agent.AgentView.HandleCall` | components/Agent.tsx:85-96 | the status becomes CONNECTING; one start request carrying the workflow id, the user name and the user id is issued exactly when the type is "generate" |
| `Agent.AgentView.HandleDisconnect` | components/Agent.tsx:98-101 | the status becomes FINISHED and a stop request is issued; navigation happens only if the status was not already FINISHED |
| `Agent.Step` | components/Agent.tsx:35-101 | one event grows the transcript by exactly that event's final transcript line, adds exactly the start or stop request of a button, and adds one navigation exactly when FINISHED is entered or the transcript changes while FINISHED |
| `Agent.Transcribed` | components/Agent.tsx:44-46 | an event contributes one transcript line exactly when it is a final transcript message, and none otherwise |
| `Agent.StartRequests` | components/Agent.tsx:88-95 | a Call click issues at most one request. It issues exactly one start for the type "generate" and none otherwise. The start carries the workflow id, user name and user id |
| `Agent.Issued` | components/Agent.tsx:85-101 | an event issues at most one request. The request is a stop exactly for an End click. Only the two button clicks issue any request |
| `Agent.LatestMessage` | components/Agent.tsx:103 | the latest message is absent exactly when the transcript is empty; otherwise it is the content of the last line |
| `Agent.ControlFor` | components/Agent.tsx:139-158 | the End button is shown exactly when ACTIVE; the Call button says "Call" exactly when INACTIVE or FINISHED, and ". . ." exactly when CONNECTING; its ping animation is hidden unless CONNECTING |
| `Agent.IsCallInactiveOrFinished` | components/Agent.tsx:104 | the status is INACTIVE or FINISHED exactly when no call is in progress (neither CONNECTING nor ACTIVE) |
| `Agent.Render` | components/Agent.tsx:103-158 | the speaking animation follows the speaking flag; the transcript box is shown exactly when the transcript is non-empty, and it shows the latest message; the control is the button `ControlFor` gives for the status, so End exactly when ACTIVE, otherwise Call with its caption and ping |
| `Session.RunTranscript` | components/Agent.tsx:43-48 | over any event sequence the transcript only grows: it becomes the old transcript followed by the sequence's final transcripts, in arrival order |
| `Session.RunSpeaking` | components/Agent.tsx:50-58 | after any event sequence, the speaking flag is on exactly when some speech-start has no later speech-end, or it was on and no speech-end came |
| `Session.RunStatus` | components/Agent.tsx:35-101 | after any event sequence the status is the one set by the last call-start, call-end, Call click or End click, or the old status if there was none |
| `Session.NoNavigationWithoutFinish` | components/Agent.tsx:81-83 | without a call-end or an End click, an unfinished session never becomes FINISHED and never navigates home |
| `Session.RunRequests` | components/Agent.tsx:85-101 | over any event sequence, requests are only appended, and each one is a stop or a start with this component's workflow, name and id, and starts occur only for the "generate" type |
| `Session.RunRequestsExact` | components/Agent.tsx:85-101 | over any event sequence, the requests become the old ones followed by exactly those the events issue, in order. The number of starts equals the number of Call clicks for the type "generate" and is 0 otherwise. The number of stops equals the number of End clicks |
| `Session.LatestAfterMessage` | components/Agent.tsx:103 | after a final transcript its text is the latest message; after any other message the latest message is unchanged |
| `Session.ErrorChangesNothing` | components/Agent.tsx:60-62 | a transport error leaves the whole state unchanged |
| `Session.DisconnectTwice` | components/Agent.tsx:98-101 | applying `handleDisconnect` a second time leaves the status FINISHED and adds no navigation; it only issues another stop |
| `Session.CallAfterFinished` | components/Agent.tsx:139-153 | when FINISHED, the Call button ("Call", no ping) is shown, and clicking it returns to CONNECTING with ". . ." and the ping animation |
| `Session.NavigatesAgainOnLateTranscript` | components/Agent.tsx:81-83 | start, connect, disconnect and then a late final transcript navigate home twice |
| `Session.HappyPath` | components/Agent.tsx:35-101 | Call, call-start, three final transcripts A, B, C and call-end end FINISHED, with transcript [A, B, C], not speaking, one navigation and the start request for the type |
| `InterviewCard.FetchFeedback` | components/InterviewCard.tsx:18-20 | feedback is present only when both the user id and the interview id are non-empty, and then it is the service's answer |
| `InterviewCard.NormalizedType` | components/InterviewCard.tsx:21 | the type badge is "Mixed" when the type contains "mix" in any letter case, and the type unchanged otherwise |
| `InterviewCard.SearchMix` | components/InterviewCard.tsx:21 | the scan finds "mix", ignoring case, exactly when it occurs at some position from the start index on |
| `InterviewCard.RenderButton` | components/InterviewCard.tsx:25-54 | the caption is "Check Feedback" exactly in feedback mode or in view mode with feedback, and exactly then the link is `/interview/{id}/feedback`; otherwise it is `/interview/{id}` with "Take Interview" (take mode) or "View Interview" (view mode without feedback) |
| `InterviewCard.OrText` | components/InterviewCard.tsx:65 | JavaScript `||` on strings: the text itself when non-empty, else the fallback |
| `InterviewCard.CardMessage` | components/InterviewCard.tsx:57-67 | take mode always shows the practice text; feedback mode shows the assessment as it is (even when empty) when feedback is present, else says feedback is not available; view mode shows a non-empty assessment, and the not-taken prompt when feedback is absent or its assessment is empty; the message is empty exactly in feedback mode with an empty assessment |
| `InterviewCard.ScoreText` | components/InterviewCard.tsx:108 | the line always ends in "/100"; it is "---/100" exactly in take mode, without feedback, or with a score of 0; otherwise it is the score's canonical JavaScript text followed by "/100", and the text before "/100" reads back as the total score |
| `InterviewCard.ModeBadge` | components/InterviewCard.tsx:78-86 | a badge is shown exactly in take and feedback modes: "Completed" exactly in feedback mode, "Available" exactly in take mode |
| `InterviewCard.RenderCard` | components/InterviewCard.tsx:69-121 | a card with an empty user id or interview id shows the placeholder score and, in view mode, the not-taken prompt; its button says "Check Feedback" exactly in feedback mode or in view mode when feedback was fetched |
| `InterviewCard.FeedbackAndViewMessagesAgree` | components/InterviewCard.tsx:57-67 | feedback mode and view mode show the same message exactly when feedback with a non-empty assessment is present |
| `InterviewCard.ZeroScoreShowsPlaceholder` | components/InterviewCard.tsx:108 | a score of 0 is shown exactly as a missing feedback record is |
| `InterviewCard.ViewCardWithScore` | components/InterviewCard.tsx:44-108 | a view-mode card whose feedback scored 87 shows "87/100" and links to the feedback page with "Check Feedback" |
| `InterviewCard.FeedbackCardWithoutRecord` | components/InterviewCard.tsx:26-61 | a feedback-mode card without a record links to the feedback page and says feedback is not available |
| `Decimal.NatToDecimal` | components/InterviewCard.tsx:108 | a score is rendered as one or more decimal digits with no leading zero |
| `Decimal.ValueOfNatToDecimal` | components/InterviewCard.tsx:108 | the digits rendered for a natural number denote that number |
| `Decimal.IntToText` | components/InterviewCard.tsx:108 | the text shown for an integer score has a minus sign exactly when the score is negative, then one or more digits with no leading zero |
| `Decimal.ParseIntToText` | components/InterviewCard.tsx:108 | the text rendered for any integer score reads back as that score |
| `Decimal.IntToTextInjective` | components/InterviewCard.tsx:108 | distinct scores show distinct texts |

## Left out

- The voice transport SDK (`vapi.start`, `vapi.stop`, `vapi.on`, `vapi.off`) is foreign real-time code. Its calls are recorded as a request trace, and its events are inputs.
- The subscribe and unsubscribe lifecycle of the first effect, state-update batching and async scheduling are React plumbing. Each handler is one atomic step, applied in arrival order. The failure of an awaited `vapi.start` is not modelled.
- `router.push("/")` is modelled only as a navigation count.
- The `lastMessage` state cell (components/Agent.tsx:32) is never written or read after it is created, so it is not a field of the model.
- `getFeedbackByInterviewId` is a server action doing I/O. Its answer is the `stored` input.
- `getRandomInterviewCover` is random and defined in a file that is not part of this model.
- The date line (`dayjs(...).format("DD/MM/YYYY")`, `Date.now()`) is a library call on clock time.
- `DisplayTechIcons`, images, CSS classes, inline styles and the JSX layout are presentational. The `role` heading is shown as it is.
- `console.log` calls are logging only.
- next.config.ts is build configuration. app/(root)/page.tsx only renders cards in the default view mode.
- Message roles: a role other than user, system or assistant cannot be represented. Message types other than final transcripts are kept only as strings.
- Decimal.IntToText: the total score is an integer. JavaScript's exponent notation for magnitudes of 10^21 and more, fractions and NaN are not modelled. A feedback record without a `totalScore` field is not modelled either.
- Button events are allowed in every state. `Agent.Event` lets a Call click happen while ACTIVE and an End click happen while not ACTIVE. The page renders the Call button only when not ACTIVE and the End button only while ACTIVE. So the session lemmas hold over a superset of the event sequences the page can produce. They are not restricted to the reachable ones.
- Navigation counts over arbitrary event sequences: there is no reference definition of the navigation count over the events alone. A navigation depends on the status and transcript before and after each step. `Session.NoNavigationWithoutFinish` bounds the count, and `Session.NavigatesAgainOnLateTranscript` and `Session.HappyPath` compute it for particular sessions.
- Changes of the effect's other dependencies are not modelled. The navigation effect also lists `type`, `userId` and `router` (components/Agent.tsx:83). The model's props are constant, so the extra `router.push("/")` that a prop change while FINISHED would cause is not captured.
- Other mode values: a `mode` value other than "feedback" or "take" takes the view branch, as in the source. It is represented by `ViewMode`.
