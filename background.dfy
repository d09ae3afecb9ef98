/**
 * The background coordinator (src/background.js): the module-level
 * conversation history and listening state, `callOpenAI` as the step that
 * updates the history, and the runtime message handler. Tab queries, tab
 * messaging, script injection and the language-model call are inputs
 * (`Env`); what the handler sends, speaks and does to the page is returned
 * (`Outputs`).
 */
module Background {
  import opened Wrappers
  import opened Actions
  import opened Snapshot
  import opened Dispatcher
  import opened Interpreter

  datatype ListeningState = Stopped | Listening | Processing

  /** A runtime message received by the background script. */
  datatype Incoming =
    | Untyped                                                    // no `type`: ignored
    | VoiceCommand(command: string)
    | VoiceStatus(status: ListeningState, transcript: Option<string>)
    | VoiceError(error: string)
    | StartListening(continuous: Option<bool>)
    | StopListening
    | GetListeningStatus
    | Speak(text: Option<string>)
    | OtherType(name: string)                                    // any other type: ignored

  /** What a message to the popup carries. */
  datatype PopupMessage =
    | StatusUpdate(status: ListeningState, transcript: Option<string>)
    | ErrorReport(error: string)
    | AiResponse(response: Option<string>)

  datatype TabMessage = StartTab(continuous: bool) | StopTab

  /** What `sendResponse` is called with. */
  datatype Reply = Success(ok: bool) | Status(state: ListeningState)

  /** How `chrome.tabs.query` for the active tab ended, and whether messaging it worked. */
  datatype TabQuery =
    | QueryFailed
    | NoActiveTab
    | ActiveTab(hasId: bool, delivered: bool)

  /**
   * The world as the handler finds it: the active tab; the page it shows
   * (None when the tab refuses injected scripts); whether the snapshot
   * script's first frame carries a result; how the user prompt is written
   * from the page snapshot and the command (its text is not modelled); the
   * language-model outcome; and the positions the reply's selector matches
   * (None when the selector is invalid).
   */
  datatype Env = Env(
    tab: TabQuery,
    dom: Option<Page>,
    snapshotHasResult: bool,
    userPrompt: (Option<PageSnapshot>, string) -> string,
    api: ApiOutcome,
    matches: Option<seq<nat>>)

  datatype Outputs = Outputs(
    reply: Option<Reply>,
    broadcasts: seq<PopupMessage>,
    spoken: seq<string>,
    toTab: seq<TabMessage>,
    request: Option<seq<Message>>,
    effects: seq<Effect>)

  const NoOutputs := Outputs(None, [], [], [], None, [])

  const NoPageText := "I can't see which page you're on."
  const WentWrongText := "Sorry, something went wrong. Please try again."

  /** The tab can be messaged: it exists and has an id. */
  predicate Addressable(t: TabQuery) {
    t.ActiveTab? && t.hasId
  }

  /**
   * How the snapshot script comes back for this environment: a tab without
   * an id or one that refuses injected scripts makes it throw.
   */
  function SnapshotOutcome(env: Env): InjectionOutcome {
    if !Addressable(env.tab) || env.dom.None? then Rejected
    else if !env.snapshotHasResult then NoResult
    else Returned(env.dom.value)
  }

  class Coordinator {
    /** Whether the build embedded an API key. */
    const keyConfigured: bool
    /** The fixed system prompt (its text is not modelled). */
    const systemPrompt: string
    /** `conversationHistory`. */
    var history: seq<Message>
    /** `listeningState`. */
    var listeningState: ListeningState

    ghost predicate Valid()
      reads this
    {
      WellFormedHistory(history)
    }

    constructor (keyConfigured: bool, systemPrompt: string)
      ensures Valid()
      ensures this.keyConfigured == keyConfigured && this.systemPrompt == systemPrompt
      ensures history == [] && listeningState == Stopped
    {
      this.keyConfigured := keyConfigured;
      this.systemPrompt := systemPrompt;
      history := [];
      listeningState := Stopped;
    }

    /**
     * `callOpenAI`: returns the messages it sends (None when no request is
     * made) and the action record it resolves to, pushing the exchange onto
     * the history on an OK reply and trimming the history past ten entries.
     */
    method CallOpenAI(command: string, userPrompt: string, outcome: ApiOutcome)
      returns (request: Option<seq<Message>>, result: ActionRecord)
      requires Valid()
      modifies this`history
      ensures Valid()
      ensures request == if keyConfigured then Some(Request(systemPrompt, old(history), userPrompt)) else None
      ensures result == Interpret(keyConfigured, outcome)
      ensures history == HistoryAfter(keyConfigured, old(history), command, outcome)
    {
      if !keyConfigured {
        return None, Say(NoKeyText);
      }
      request := Some([Message(System, systemPrompt)] + LastN(history, HistorySent) + [Message(User, userPrompt)]);
      match outcome {
        case Threw =>
          result := Say(TroubleText);
        case BadStatus(_) =>
          result := Say(TroubleText);
        case Replied(text, parsed) =>
          ghost var before := history;
          history := history + [Message(User, command)];
          history := history + [Message(Assistant, text)];
          if |history| > HistoryLimit {
            history := history[|history| - HistoryKeep..];
          }
          assert history == Remember(before, command, text);
          if parsed.Some? {
            result := parsed.value;
          } else {
            result := Say(CleanReply(text));
          }
      }
    }

    /** The `chrome.runtime.onMessage` listener, one message at a time. */
    method HandleMessage(msg: Incoming, env: Env) returns (out: Outputs)
      requires Valid()
      modifies this`history, this`listeningState
      ensures Valid()
      // the listening state
      ensures msg.VoiceStatus? ==> listeningState == msg.status
      ensures msg.VoiceError? ==> listeningState == Stopped
      ensures msg.StopListening? ==> listeningState == Stopped
      ensures msg.StartListening? ==>
        listeningState == if Addressable(env.tab) && env.tab.delivered then Listening else old(listeningState)
      ensures !(msg.VoiceStatus? || msg.VoiceError? || msg.StopListening? || msg.StartListening?) ==>
        listeningState == old(listeningState)
      // the conversation history
      ensures history == if msg.VoiceCommand? && env.tab.ActiveTab?
        then HistoryAfter(keyConfigured, old(history), msg.command, env.api) else old(history)
      // the voice-command pipeline
      ensures msg.VoiceCommand? && env.tab.ActiveTab? ==>
        var prompt := env.userPrompt(GetPageStructure(SnapshotOutcome(env)), msg.command);
        var result := Interpret(keyConfigured, env.api);
        && out.reply == None && out.toTab == []
        && out.request == (if keyConfigured then Some(Request(systemPrompt, old(history), prompt)) else None)
        && out.broadcasts == [StatusUpdate(Processing, Some(msg.command)), AiResponse(result.response)]
        && out.spoken == (if Truthy(result.response) then [result.response.value] else [])
        && out.effects == Effects(result, env.dom.GetOr(Page("", "", [], "")), env.matches, Addressable(env.tab) && env.dom.Some?)
      ensures msg.VoiceCommand? && env.tab.NoActiveTab? ==> out == NoOutputs.(spoken := [NoPageText])
      ensures msg.VoiceCommand? && env.tab.QueryFailed? ==>
        out == NoOutputs.(spoken := [WentWrongText], broadcasts := [ErrorReport("processing-failed")])
      // relays to the popup
      ensures msg.VoiceStatus? ==> out == NoOutputs.(broadcasts := [StatusUpdate(msg.status, msg.transcript)])
      ensures msg.VoiceError? ==> out == NoOutputs.(broadcasts := [ErrorReport(msg.error)])
      // starting and stopping through the content script
      ensures msg.StartListening? ==>
        var started := Addressable(env.tab) && env.tab.delivered;
        out == NoOutputs.(
          reply := Some(Success(started)),
          toTab := (if Addressable(env.tab) then [StartTab(msg.continuous == Some(true))] else []),
          broadcasts := if started then []
            else if Addressable(env.tab) || env.tab.QueryFailed? then [ErrorReport("page-not-supported")]
            else [ErrorReport("no-tab")])
      ensures msg.StopListening? ==>
        out == NoOutputs.(reply := Some(Success(true)), toTab := if Addressable(env.tab) then [StopTab] else [])
      ensures msg.GetListeningStatus? ==> out == NoOutputs.(reply := Some(Status(old(listeningState))))
      ensures msg.Speak? ==> out == NoOutputs.(spoken := if Truthy(msg.text) then [msg.text.value] else [])
      ensures msg.Untyped? || msg.OtherType? ==> out == NoOutputs
    {
      out := NoOutputs;
      match msg {
        case VoiceCommand(command) =>
          match env.tab {
            case QueryFailed =>
              out := out.(spoken := [WentWrongText], broadcasts := [ErrorReport("processing-failed")]);
            case NoActiveTab =>
              out := out.(spoken := [NoPageText]);
            case ActiveTab(_, _) =>
              out := out.(broadcasts := [StatusUpdate(Processing, Some(command))]);
              var snapshot := GetPageStructure(SnapshotOutcome(env));
              var request, result := CallOpenAI(command, env.userPrompt(snapshot, command), env.api);
              var effects := Execute(result, env.dom.GetOr(Page("", "", [], "")), env.matches, Addressable(env.tab) && env.dom.Some?);
              out := out.(request := request, effects := effects);
              if Truthy(result.response) {
                out := out.(spoken := [result.response.value]);
              }
              out := out.(broadcasts := out.broadcasts + [AiResponse(result.response)]);
          }
        case VoiceStatus(status, transcript) =>
          listeningState := status;
          out := out.(broadcasts := [StatusUpdate(status, transcript)]);
        case VoiceError(error) =>
          listeningState := Stopped;
          out := out.(broadcasts := [ErrorReport(error)]);
        case StartListening(continuous) =>
          if env.tab.QueryFailed? {
            out := out.(broadcasts := [ErrorReport("page-not-supported")], reply := Some(Success(false)));
          } else if !Addressable(env.tab) {
            out := out.(broadcasts := [ErrorReport("no-tab")], reply := Some(Success(false)));
          } else {
            out := out.(toTab := [StartTab(continuous == Some(true))]);
            if env.tab.delivered {
              listeningState := Listening;
              out := out.(reply := Some(Success(true)));
            } else {
              out := out.(broadcasts := [ErrorReport("page-not-supported")], reply := Some(Success(false)));
            }
          }
        case StopListening =>
          if Addressable(env.tab) {
            out := out.(toTab := [StopTab]);
          }
          listeningState := Stopped;
          out := out.(reply := Some(Success(true)));
        case GetListeningStatus =>
          out := out.(reply := Some(Status(listeningState)));
        case Speak(text) =>
          if Truthy(text) {
            out := out.(spoken := [text.value]);
          }
        case Untyped =>
        case OtherType(_) =>
      }
    }
  }
}
