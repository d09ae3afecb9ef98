/**
 * The recognition controller of the content script (the first IIFE in
 * src/content.js). The speech engine is replaced by the calls made to it
 * and the events it fires; timers become explicit "fires" events that
 * re-check their guard; permission and platform support are inputs.
 */
module Recognition {
  import opened Wrappers
  import Background

  /** A call made on the speech-recognition object. */
  datatype EngineCall = Start | Stop

  /**
   * Errors the controller keeps to itself: `aborted` always, and
   * `no-speech` while in continuous mode.
   */
  predicate IsSwallowed(code: string, continuousMode: bool) {
    code == "aborted" || (code == "no-speech" && continuousMode)
  }

  /** `aborted` is never reported, `no-speech` only outside continuous mode, every other code always. */
  lemma ErrorPolicy(code: string, continuousMode: bool)
    ensures code == "aborted" ==> IsSwallowed(code, continuousMode)
    ensures code == "no-speech" ==> (IsSwallowed(code, continuousMode) <==> continuousMode)
    ensures code != "aborted" && code != "no-speech" ==> !IsSwallowed(code, continuousMode)
  {
  }

  /**
   * The transcript of a result event: the last result's alternative. The
   * engine is configured with `maxAlternatives = 1`, so each result carries
   * exactly one.
   */
  function Transcript(results: seq<seq<string>>): (t: string)
    requires |results| > 0 && |results[|results| - 1]| == 1
    ensures results[|results| - 1] == [t]
  {
    results[|results| - 1][0]
  }

  /**
   * What asking for the microphone reports: nothing when permission was
   * already granted, `audio-capture` without `mediaDevices`, `not-allowed`
   * on a refusal.
   */
  function PermissionReports(checked: bool, hasMediaDevices: bool, grants: bool): (r: seq<Background.Incoming>)
    ensures |r| <= 1
    ensures r == [] <==> checked || (hasMediaDevices && grants)
  {
    if checked then []
    else if !hasMediaDevices then [Background.VoiceError("audio-capture")]
    else if grants then []
    else [Background.VoiceError("not-allowed")]
  }

  class Controller {
    /** `window.SpeechRecognition || window.webkitSpeechRecognition` exists. */
    const supported: bool
    /** `navigator.mediaDevices.getUserMedia` exists. */
    const hasMediaDevices: bool
    /** `recognition` is not null. */
    var recognitionReady: bool
    var isListening: bool
    var continuousMode: bool
    var permissionChecked: bool
    /** End-of-recognition restart timers not yet fired. */
    var pendingRestarts: nat
    /** Start-failure retry timers not yet fired. */
    var pendingRetries: nat
    /** Every runtime message sent, in order. */
    var sent: seq<Background.Incoming>
    /** Every call made on the speech engine, in order. */
    var engine: seq<EngineCall>

    /** Nothing is listening, in continuous mode or timed before the engine exists. */
    ghost predicate Valid()
      reads this
    {
      (isListening || continuousMode || pendingRestarts > 0 || pendingRetries > 0 || engine != []) ==> recognitionReady
    }

    /** Loading the script runs `initRecognition` once. */
    constructor (supported: bool, hasMediaDevices: bool)
      ensures Valid()
      ensures this.supported == supported && this.hasMediaDevices == hasMediaDevices
      ensures recognitionReady == supported
      ensures !isListening && !continuousMode && !permissionChecked
      ensures pendingRestarts == 0 && pendingRetries == 0 && engine == []
      ensures sent == if supported then [] else [Background.VoiceError("speech-not-supported")]
    {
      this.supported := supported;
      this.hasMediaDevices := hasMediaDevices;
      recognitionReady := supported;
      isListening, continuousMode, permissionChecked := false, false, false;
      pendingRestarts, pendingRetries := 0, 0;
      engine := [];
      sent := if supported then [] else [Background.VoiceError("speech-not-supported")];
    }

    /** `initRecognition`: create the engine, or report that the browser has none. */
    method InitRecognition() returns (ok: bool)
      requires Valid()
      modifies this`recognitionReady, this`sent
      ensures Valid()
      ensures ok == supported
      ensures recognitionReady == (old(recognitionReady) || supported)
      ensures sent == old(sent) + (if supported then [] else [Background.VoiceError("speech-not-supported")])
    {
      if !supported {
        sent := sent + [Background.VoiceError("speech-not-supported")];
        return false;
      }
      recognitionReady := true;
      return true;
    }

    /** The engine's `onstart`. */
    method OnStart()
      requires Valid() && recognitionReady
      modifies this`isListening, this`sent
      ensures Valid()
      ensures isListening
      ensures sent == old(sent) + [Background.VoiceStatus(Background.Listening, None)]
    {
      isListening := true;
      sent := sent + [Background.VoiceStatus(Background.Listening, None)];
    }

    /** The engine's `onresult`: report `processing` with the transcript, then send it as a command. */
    method OnResult(results: seq<seq<string>>)
      requires |results| > 0 && |results[|results| - 1]| == 1
      modifies this`sent
      ensures var t := Transcript(results);
        sent == old(sent) + [Background.VoiceStatus(Background.Processing, Some(t)), Background.VoiceCommand(t)]
    {
      var t := results[|results| - 1][0];
      sent := sent + [Background.VoiceStatus(Background.Processing, Some(t))];
      sent := sent + [Background.VoiceCommand(t)];
    }

    /** The engine's `onerror`: forward the code unless it is swallowed. */
    method OnError(code: string)
      modifies this`sent
      ensures sent == old(sent) + (if IsSwallowed(code, continuousMode) then [] else [Background.VoiceError(code)])
    {
      if code == "no-speech" && continuousMode {
        return;
      }
      if code == "aborted" {
        return;
      }
      sent := sent + [Background.VoiceError(code)];
    }

    /**
     * The engine's `onend`: in continuous mode while listening, schedule a
     * restart; otherwise stop and report `stopped`.
     */
    method OnEnd()
      requires Valid()
      modifies this`isListening, this`pendingRestarts, this`sent
      ensures Valid()
      ensures old(continuousMode && isListening) ==>
        isListening && pendingRestarts == old(pendingRestarts) + 1 && sent == old(sent)
      ensures !old(continuousMode && isListening) ==>
        !isListening && pendingRestarts == old(pendingRestarts)
        && sent == old(sent) + [Background.VoiceStatus(Background.Stopped, None)]
    {
      if continuousMode && isListening {
        pendingRestarts := pendingRestarts + 1;
      } else {
        isListening := false;
        sent := sent + [Background.VoiceStatus(Background.Stopped, None)];
      }
    }

    /** A restart timer fires: it starts the engine only if both flags still hold. */
    method RestartFires()
      requires Valid() && pendingRestarts > 0
      modifies this`pendingRestarts, this`engine
      ensures Valid()
      ensures pendingRestarts == old(pendingRestarts) - 1
      ensures engine == old(engine) + (if continuousMode && isListening then [Start] else [])
    {
      pendingRestarts := pendingRestarts - 1;
      if continuousMode && isListening {
        engine := engine + [Start];
      }
    }

    /** A start-failure retry timer fires: it starts the engine unconditionally. */
    method RetryFires()
      requires Valid() && pendingRetries > 0
      modifies this`pendingRetries, this`engine
      ensures Valid()
      ensures pendingRetries == old(pendingRetries) - 1
      ensures engine == old(engine) + [Start]
    {
      pendingRetries := pendingRetries - 1;
      engine := engine + [Start];
    }

    /**
     * `requestMicPermission`: a granted permission is cached and later calls
     * succeed without asking; a missing `mediaDevices` reports
     * `audio-capture`; a refusal reports `not-allowed` and is not cached.
     */
    method RequestMicPermission(grants: bool) returns (allowed: bool)
      modifies this`permissionChecked, this`sent
      ensures old(permissionChecked) ==> allowed && permissionChecked && sent == old(sent)
      ensures !old(permissionChecked) && !hasMediaDevices ==>
        !allowed && !permissionChecked && sent == old(sent) + [Background.VoiceError("audio-capture")]
      ensures !old(permissionChecked) && hasMediaDevices ==>
        allowed == grants && permissionChecked == grants
        && sent == old(sent) + (if grants then [] else [Background.VoiceError("not-allowed")])
    {
      if permissionChecked {
        return true;
      }
      if !hasMediaDevices {
        sent := sent + [Background.VoiceError("audio-capture")];
        return false;
      }
      if grants {
        permissionChecked := true;
        return true;
      }
      sent := sent + [Background.VoiceError("not-allowed")];
      return false;
    }

    /**
     * `startListening`: a no-op while listening; otherwise take the mode
     * from the argument, ask for the microphone, and only if allowed mark
     * listening and start the engine. A start that throws stops the engine
     * and schedules one retry.
     */
    method StartListening(continuous: Option<bool>, grants: bool, startThrows: bool)
      requires Valid()
      modifies this
      ensures Valid()
      ensures StartOutcome(continuous, grants, startThrows)
    {
      if !recognitionReady {
        var ok := InitRecognition();
        if !ok {
          return;
        }
      }
      if isListening {
        return;
      }
      continuousMode := continuous == Some(true);
      var allowed := RequestMicPermission(grants);
      if !allowed {
        return;
      }
      isListening := true;
      engine := engine + [Start];
      if startThrows {
        engine := engine + [Stop];
        pendingRetries := pendingRetries + 1;
      }
    }

    /**
     * The whole new state after `startListening`. Without an engine and
     * without browser support, only `speech-not-supported` is reported;
     * while listening, nothing changes; otherwise the mode is taken from
     * the argument, the microphone is asked for, and only when it is
     * allowed is the controller listening and the engine started (a start
     * that throws is followed by a stop and one retry timer).
     */
    twostate predicate StartOutcome(continuous: Option<bool>, grants: bool, startThrows: bool)
      reads this
    {
      && pendingRestarts == old(pendingRestarts)
      && recognitionReady == (old(recognitionReady) || supported)
      && if !old(recognitionReady) && !supported then
        && sent == old(sent) + [Background.VoiceError("speech-not-supported")]
        && isListening == old(isListening) && continuousMode == old(continuousMode)
        && permissionChecked == old(permissionChecked)
        && engine == old(engine) && pendingRetries == old(pendingRetries)
      else if old(isListening) then
        && sent == old(sent)
        && isListening && continuousMode == old(continuousMode)
        && permissionChecked == old(permissionChecked)
        && engine == old(engine) && pendingRetries == old(pendingRetries)
      else
        var allowed := old(permissionChecked) || (hasMediaDevices && grants);
        && sent == old(sent) + PermissionReports(old(permissionChecked), hasMediaDevices, grants)
        && isListening == allowed && continuousMode == (continuous == Some(true))
        && permissionChecked == allowed
        && engine == old(engine) + (if !allowed then [] else if startThrows then [Start, Stop] else [Start])
        && pendingRetries == old(pendingRetries) + (if allowed && startThrows then 1 else 0)
    }

    /**
     * The whole new state after `stopListening`: both flags cleared, the
     * engine stopped if it exists, `stopped` reported, nothing else changed.
     */
    twostate predicate StopOutcome()
      reads this
    {
      && !continuousMode && !isListening
      && engine == old(engine) + (if recognitionReady then [Stop] else [])
      && sent == old(sent) + [Background.VoiceStatus(Background.Stopped, None)]
      && recognitionReady == old(recognitionReady) && permissionChecked == old(permissionChecked)
      && pendingRestarts == old(pendingRestarts) && pendingRetries == old(pendingRetries)
    }

    /** `stopListening`: clear both flags, stop the engine, report `stopped`. */
    method StopListening()
      requires Valid()
      modifies this`continuousMode, this`isListening, this`engine, this`sent
      ensures Valid()
      ensures StopOutcome()
    {
      continuousMode := false;
      isListening := false;
      if recognitionReady {
        engine := engine + [Stop];
      }
      sent := sent + [Background.VoiceStatus(Background.Stopped, None)];
    }

    /** The content script's message listener: start or stop on request, always answering success. */
    method OnMessage(msg: Background.TabMessage, grants: bool, startThrows: bool) returns (success: bool)
      requires Valid()
      modifies this
      ensures Valid()
      ensures success
      ensures msg.StartTab? ==> StartOutcome(Some(msg.continuous), grants, startThrows)
      ensures msg.StopTab? ==> StopOutcome()
    {
      match msg {
        case StartTab(continuous) =>
          StartListening(Some(continuous), grants, startThrows);
        case StopTab =>
          StopListening();
      }
      return true;
    }
  }

  /**
   * Stopping cancels a pending auto-restart: after `stopListening`, the
   * restart timer fails its guard and issues no start.
   */
  method StopCancelsPendingRestart(c: Controller)
    requires c.Valid() && c.pendingRestarts > 0
    modifies c
    ensures c.Valid()
    ensures c.engine == old(c.engine) + [Stop]
    ensures !c.isListening && c.pendingRestarts == old(c.pendingRestarts) - 1
  {
    c.StopListening();
    c.RestartFires();
  }

  /**
   * A continuous session restarts after each end of recognition until it
   * is stopped: an end while listening continuously followed by its timer
   * starts the engine again.
   */
  method ContinuousEndRestarts(c: Controller)
    requires c.Valid() && c.continuousMode && c.isListening
    modifies c
    ensures c.Valid()
    ensures c.isListening && c.engine == old(c.engine) + [Start] && c.sent == old(c.sent)
  {
    c.OnEnd();
    c.RestartFires();
  }
}
