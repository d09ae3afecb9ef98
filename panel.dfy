/**
 * The in-page panel's recognition controller (the second IIFE in
 * src/content.js): its own copy of the listening flags, the toggle and
 * keyboard rules, and the table of error texts. What the panel shows is
 * the sequence of `updateUI` calls; tones and the panel's markup are not
 * modelled.
 */
module Panel {
  import opened Wrappers
  import opened Text
  import opened Recognition

  /** An `updateUI` call. */
  datatype UiState = Ready | ListeningUi | ProcessingUi(transcript: string) | ErrorUi(message: string)

  /** A runtime message the panel's listener receives. */
  datatype PanelMessage = AiResponse(response: Option<string>) | Ping | StartRequest | StopRequest | OtherMessage

  const ErrorMessages: map<string, string> := map[
    "not-allowed" := "Microphone access denied. Please allow microphone access in browser settings.",
    "no-speech" := "No speech detected. Try again.",
    "network" := "Network error. Check your connection.",
    "audio-capture" := "No microphone found. Please connect a microphone."
  ]

  const VoiceErrorPrefix := "Voice error: "
  const UnsupportedText := "Speech recognition not supported in this browser."
  const CannotStartText := "Could not start listening. Please refresh the page."

  /**
   * `errorMessages[code] || 'Voice error: ' + code`: a known code reads as
   * one of the table's texts, any other code is named after the prefix.
   */
  function ErrorText(code: string): (r: string)
    ensures code in ErrorMessages ==> r in ErrorMessages.Values
    ensures code !in ErrorMessages ==> IsPrefix(VoiceErrorPrefix, r) && r[|VoiceErrorPrefix|..] == code
  {
    if code in ErrorMessages then ErrorMessages[code] else VoiceErrorPrefix + code
  }

  /**
   * The four known codes get their fixed texts; any other code is named
   * in the generic text, so two different unknown codes never read alike.
   */
  lemma {:induction false} ErrorTextTable(code: string, other: string)
    ensures code == "not-allowed" ==> ErrorText(code) == "Microphone access denied. Please allow microphone access in browser settings."
    ensures code == "no-speech" ==> ErrorText(code) == "No speech detected. Try again."
    ensures code == "network" ==> ErrorText(code) == "Network error. Check your connection."
    ensures code == "audio-capture" ==> ErrorText(code) == "No microphone found. Please connect a microphone."
    ensures code !in ErrorMessages ==> IsPrefix(VoiceErrorPrefix, ErrorText(code))
    ensures code !in ErrorMessages && other !in ErrorMessages && ErrorText(code) == ErrorText(other) ==> code == other
  {
    if code !in ErrorMessages {
      assert ErrorText(code)[..|VoiceErrorPrefix|] == VoiceErrorPrefix;
    }
    if code !in ErrorMessages && other !in ErrorMessages && ErrorText(code) == ErrorText(other) {
      assert code == ErrorText(code)[|VoiceErrorPrefix|..];
      assert other == ErrorText(other)[|VoiceErrorPrefix|..];
    }
  }

  /** Alt+V, the key compared case-insensitively. */
  predicate IsToggleShortcut(altKey: bool, key: string) {
    altKey && ToLower(key) == "v"
  }

  /** The shortcut is Alt with `v` or `V` and nothing else. */
  lemma {:induction false} ToggleShortcutKeys(altKey: bool, key: string)
    ensures IsToggleShortcut(altKey, key) <==> altKey && (key == "v" || key == "V")
  {
    if altKey && ToLower(key) == "v" {
      assert |key| == 1 && ToLower(key)[0] == 'v';
      assert key == [key[0]];
    }
    if key == "v" || key == "V" {
      assert ToLower(key)[0] == 'v';
      assert ToLower(key) == "v";
    }
  }

  class PanelController {
    /** `window.SpeechRecognition || window.webkitSpeechRecognition` exists. */
    const supported: bool
    /** `recognition` is not null. */
    var recognitionReady: bool
    var isListening: bool
    var continuousMode: bool
    var pendingRestarts: nat
    var pendingRetries: nat
    /** Every `updateUI` call, in order. */
    var ui: seq<UiState>
    /** Every transcript sent as a `VOICE_COMMAND`, in order. */
    var commands: seq<string>
    /** Every call made on the speech engine, in order. */
    var engine: seq<EngineCall>

    ghost predicate Valid()
      reads this
    {
      (isListening || continuousMode || pendingRestarts > 0 || pendingRetries > 0 || engine != []) ==> recognitionReady
    }

    /** `init` creates the engine once the panel is in place. */
    constructor (supported: bool)
      ensures Valid()
      ensures this.supported == supported && recognitionReady == supported
      ensures !isListening && !continuousMode
      ensures pendingRestarts == 0 && pendingRetries == 0
      ensures ui == [] && commands == [] && engine == []
    {
      this.supported := supported;
      recognitionReady := supported;
      isListening, continuousMode := false, false;
      pendingRestarts, pendingRetries := 0, 0;
      ui, commands, engine := [], [], [];
    }

    /** The engine's `onstart`. */
    method OnStart()
      requires Valid() && recognitionReady
      modifies this`isListening, this`ui
      ensures Valid()
      ensures isListening && ui == old(ui) + [ListeningUi]
    {
      isListening := true;
      ui := ui + [ListeningUi];
    }

    /** The engine's `onresult`: show the transcript and send it as a command. */
    method OnResult(results: seq<seq<string>>)
      requires |results| > 0 && |results[|results| - 1]| == 1
      modifies this`ui, this`commands
      ensures ui == old(ui) + [ProcessingUi(Transcript(results))]
      ensures commands == old(commands) + [Transcript(results)]
    {
      var t := results[|results| - 1][0];
      ui := ui + [ProcessingUi(t)];
      commands := commands + [t];
    }

    /** The engine's `onerror`: unless swallowed, show the code's text. */
    method OnError(code: string)
      modifies this`ui
      ensures ui == old(ui) + (if IsSwallowed(code, continuousMode) then [] else [ErrorUi(ErrorText(code))])
    {
      if code == "no-speech" && continuousMode {
        return;
      }
      if code == "aborted" {
        return;
      }
      ui := ui + [ErrorUi(ErrorText(code))];
    }

    /** The engine's `onend`: schedule a restart in continuous mode, otherwise stop. */
    method OnEnd()
      requires Valid()
      modifies this`isListening, this`pendingRestarts, this`ui
      ensures Valid()
      ensures old(continuousMode && isListening) ==>
        isListening && pendingRestarts == old(pendingRestarts) + 1 && ui == old(ui)
      ensures !old(continuousMode && isListening) ==>
        !isListening && pendingRestarts == old(pendingRestarts) && ui == old(ui) + [Ready]
    {
      if continuousMode && isListening {
        pendingRestarts := pendingRestarts + 1;
      } else {
        isListening := false;
        ui := ui + [Ready];
      }
    }

    /** A restart timer fires: it starts the engine only if both flags still hold. */
    method RestartFires()
      requires Valid() && pendingRestarts > 0
      modifies this`pendingRestarts, this`engine
      ensures Valid()
      ensures pendingRestarts == old(pendingRestarts) - 1
      ensures engine == old(engine) + (if continuousMode && isListening then [Start] else [])
    {
      pendingRestarts := pendingRestarts - 1;
      if continuousMode && isListening {
        engine := engine + [Start];
      }
    }

    /** The retry timer fires: start again, and report if that throws too. */
    method RetryFires(startThrows: bool)
      requires Valid() && pendingRetries > 0
      modifies this`pendingRetries, this`engine, this`ui
      ensures Valid()
      ensures pendingRetries == old(pendingRetries) - 1
      ensures engine == old(engine) + [Start]
      ensures ui == old(ui) + (if startThrows then [ErrorUi(CannotStartText)] else [])
    {
      pendingRetries := pendingRetries - 1;
      engine := engine + [Start];
      if startThrows {
        ui := ui + [ErrorUi(CannotStartText)];
      }
    }

    /**
     * The whole new state after `startListening`. Without an engine and
     * without browser support, the unsupported text is shown; while
     * listening, nothing changes; otherwise the mode is taken from the
     * continuous checkbox (off when the checkbox is missing) and the engine
     * started (a start that throws is followed by a stop and one retry
     * timer). `isListening` is left to the engine's `onstart`.
     */
    twostate predicate StartOutcome(checkbox: Option<bool>, startThrows: bool)
      reads this
    {
      && isListening == old(isListening)
      && pendingRestarts == old(pendingRestarts)
      && commands == old(commands)
      && recognitionReady == (old(recognitionReady) || supported)
      && if !old(recognitionReady) && !supported then
        && ui == old(ui) + [ErrorUi(UnsupportedText)]
        && continuousMode == old(continuousMode) && engine == old(engine) && pendingRetries == old(pendingRetries)
      else if old(isListening) then
        && ui == old(ui)
        && continuousMode == old(continuousMode) && engine == old(engine) && pendingRetries == old(pendingRetries)
      else
        && ui == old(ui)
        && continuousMode == (checkbox == Some(true))
        && engine == old(engine) + (if startThrows then [Start, Stop] else [Start])
        && pendingRetries == old(pendingRetries) + (if startThrows then 1 else 0)
    }

    /**
     * The whole new state after `stopListening`: both flags cleared, the
     * engine stopped if it exists, ready shown, nothing else changed.
     */
    twostate predicate StopOutcome()
      reads this
    {
      && !continuousMode && !isListening
      && engine == old(engine) + (if recognitionReady then [Stop] else [])
      && ui == old(ui) + [Ready]
      && recognitionReady == old(recognitionReady) && commands == old(commands)
      && pendingRestarts == old(pendingRestarts) && pendingRetries == old(pendingRetries)
    }

    /** `startListening`, as `StartOutcome` describes. */
    method StartListening(checkbox: Option<bool>, startThrows: bool)
      requires Valid()
      modifies this`recognitionReady, this`continuousMode, this`engine, this`pendingRetries, this`ui
      ensures Valid()
      ensures StartOutcome(checkbox, startThrows)
    {
      if !recognitionReady {
        if !supported {
          ui := ui + [ErrorUi(UnsupportedText)];
          return;
        }
        recognitionReady := true;
      }
      if isListening {
        return;
      }
      continuousMode := checkbox == Some(true);
      engine := engine + [Start];
      if startThrows {
        engine := engine + [Stop];
        pendingRetries := pendingRetries + 1;
      }
    }

    /** `stopListening`: clear both flags, stop the engine, show ready. */
    method StopListening()
      requires Valid()
      modifies this`continuousMode, this`isListening, this`engine, this`ui
      ensures Valid()
      ensures StopOutcome()
    {
      continuousMode := false;
      isListening := false;
      if recognitionReady {
        engine := engine + [Stop];
      }
      ui := ui + [Ready];
    }

    /** `toggleListening`: stop when listening, start otherwise. */
    method ToggleListening(checkbox: Option<bool>, startThrows: bool)
      requires Valid()
      modifies this
      ensures Valid()
      ensures old(isListening) ==> StopOutcome()
      ensures !old(isListening) ==> StartOutcome(checkbox, startThrows)
    {
      if isListening {
        StopListening();
      } else {
        StartListening(checkbox, startThrows);
      }
    }

    /**
     * `handleKeyboard`: Alt+V toggles; Escape stops, but only while
     * listening. Returns whether the key's default action was prevented.
     */
    method HandleKeyboard(altKey: bool, key: string, checkbox: Option<bool>, startThrows: bool)
      returns (prevented: bool)
      requires Valid()
      modifies this
      ensures Valid()
      ensures prevented <==> IsToggleShortcut(altKey, key) || (key == "Escape" && old(isListening))
      ensures IsToggleShortcut(altKey, key) && old(isListening) ==> StopOutcome()
      ensures IsToggleShortcut(altKey, key) && !old(isListening) ==> StartOutcome(checkbox, startThrows)
      ensures key == "Escape" && old(isListening) ==> StopOutcome()
      ensures !prevented ==> unchanged(this)
    {
      prevented := false;
      if altKey && ToLower(key) == "v" {
        prevented := true;
        ToggleListening(checkbox, startThrows);
      }
      if key == "Escape" && isListening {
        prevented := true;
        StopListening();
      }
    }

    /** Unchecking the continuous box while listening leaves continuous mode. */
    method OnCheckboxChange(checked: bool)
      modifies this`continuousMode
      ensures continuousMode == if !checked && isListening then false else old(continuousMode)
    {
      if !checked && isListening {
        continuousMode := false;
      }
    }

    /**
     * The panel's message listener: a response shows ready unless in
     * continuous mode; start and stop requests are carried out; `PING`,
     * start and stop are answered with success.
     */
    method OnMessage(msg: PanelMessage, checkbox: Option<bool>, startThrows: bool) returns (reply: Option<bool>)
      requires Valid()
      modifies this
      ensures Valid()
      ensures reply == if msg.Ping? || msg.StartRequest? || msg.StopRequest? then Some(true) else None
      ensures msg.AiResponse? ==>
        && ui == old(ui) + (if old(continuousMode) then [] else [Ready])
        && isListening == old(isListening) && continuousMode == old(continuousMode)
        && recognitionReady == old(recognitionReady) && engine == old(engine) && commands == old(commands)
        && pendingRestarts == old(pendingRestarts) && pendingRetries == old(pendingRetries)
      ensures msg.StartRequest? ==> StartOutcome(checkbox, startThrows)
      ensures msg.StopRequest? ==> StopOutcome()
      ensures msg.Ping? || msg.OtherMessage? ==> unchanged(this)
    {
      reply := None;
      match msg {
        case AiResponse(_) =>
          if !continuousMode {
            ui := ui + [Ready];
          }
        case Ping =>
          reply := Some(true);
        case StartRequest =>
          StartListening(checkbox, startThrows);
          reply := Some(true);
        case StopRequest =>
          StopListening();
          reply := Some(true);
        case OtherMessage =>
      }
    }
  }
}
