// Speech-to-text session manager: the listening flag, the cached partial
// transcript and the callbacks fired by the platform recogniser's listener.

module SpeechToText {
  import opened Wrappers
  import opened Text

  // Platform recogniser error codes.
  const ErrorNetworkTimeout := 1
  const ErrorNetwork := 2
  const ErrorAudio := 3
  const ErrorServer := 4
  const ErrorClient := 5
  const ErrorSpeechTimeout := 6
  const ErrorNoMatch := 7
  const ErrorRecognizerBusy := 8
  const ErrorInsufficientPermissions := 9

  predicate IsKnownError(code: int) {
    ErrorNetworkTimeout <= code <= ErrorInsufficientPermissions
  }

  const UnknownCodeNamePrefix: string := "ERROR_UNKNOWN("
  const UnknownErrorPrefix: string := "알 수 없는 에러 (코드: "

  // Messages the manager itself reports through the plain error callback.
  const UnsupportedMessage: string := "이 기기에서는 음성 인식을 지원하지 않습니다."
  const NotInitializedMessage: string := "SpeechRecognizer가 초기화되지 않았습니다."
  const PermissionRequiredMessage: string := "마이크 권한이 필요합니다."
  const StartFailedPrefix: string := "음성 인식 시작 실패: "
  const NothingRecognizedMessage: string := "인식된 말이 없습니다."

  /** Diagnostic name of a recogniser error code. */
  function ErrorCodeToString(code: int): (s: string)
    ensures |s| > 6 && s[..6] == "ERROR_"
    ensures IsKnownError(code) <==> s[6] != 'U'
  {
    match code
    case 3 => "ERROR_AUDIO"
    case 5 => "ERROR_CLIENT"
    case 9 => "ERROR_INSUFFICIENT_PERMISSIONS"
    case 2 => "ERROR_NETWORK"
    case 1 => "ERROR_NETWORK_TIMEOUT"
    case 7 => "ERROR_NO_MATCH"
    case 8 => "ERROR_RECOGNIZER_BUSY"
    case 4 => "ERROR_SERVER"
    case 6 => "ERROR_SPEECH_TIMEOUT"
    case _ => UnknownCodeNamePrefix + IntToString(code) + ")"
  }

  /** The name of an unknown code carries the code itself, so it can be read back. */
  lemma UnknownCodeName(code: int)
    requires !IsKnownError(code)
    ensures var s := ErrorCodeToString(code);
      |s| > |UnknownCodeNamePrefix| && s[..|UnknownCodeNamePrefix|] == UnknownCodeNamePrefix
      && s[|s| - 1] == ')' && s[|UnknownCodeNamePrefix|..|s| - 1] == IntToString(code)
  {
  }

  /** Different codes never share a name. */
  lemma ErrorCodeToStringInjective(a: int, b: int)
    requires ErrorCodeToString(a) == ErrorCodeToString(b)
    ensures a == b
  {
    if !IsKnownError(a) && !IsKnownError(b) {
      UnknownCodeName(a);
      UnknownCodeName(b);
      IntToStringInjective(a, b);
    }
  }

  /** User-facing (Korean) message for a recogniser error code. */
  function ErrorMessage(code: int): (msg: string)
    ensures IsKnownError(code) <==> !(|msg| >= |UnknownErrorPrefix| && msg[..|UnknownErrorPrefix|] == UnknownErrorPrefix)
  {
    match code
    case 3 => "오디오 에러"
    case 5 => "클라이언트 에러"
    case 9 => "권한 부족"
    case 2 => "네트워크 에러"
    case 1 => "네트워크 타임아웃"
    case 7 => "인식 결과 없음"
    case 8 => "인식기 사용 중"
    case 4 => "서버 에러"
    case 6 => "말 없음 타임아웃"
    case _ => UnknownErrorPrefix + IntToString(code) + ")"
  }

  /** The code a known error message stands for; None for any other text. */
  function KnownMessageCode(msg: string): (code: Option<int>)
    ensures code.Some? ==> IsKnownError(code.value)
  {
    if msg == "오디오 에러" then Some(ErrorAudio)
    else if msg == "클라이언트 에러" then Some(ErrorClient)
    else if msg == "권한 부족" then Some(ErrorInsufficientPermissions)
    else if msg == "네트워크 에러" then Some(ErrorNetwork)
    else if msg == "네트워크 타임아웃" then Some(ErrorNetworkTimeout)
    else if msg == "인식 결과 없음" then Some(ErrorNoMatch)
    else if msg == "인식기 사용 중" then Some(ErrorRecognizerBusy)
    else if msg == "서버 에러" then Some(ErrorServer)
    else if msg == "말 없음 타임아웃" then Some(ErrorSpeechTimeout)
    else None
  }

  /** A known code's message reads back as that code; an unknown code's as none of them. */
  lemma ErrorMessageDecodes(code: int)
    ensures KnownMessageCode(ErrorMessage(code)) == if IsKnownError(code) then Some(code) else None
  {
    if !IsKnownError(code) {
      assert |ErrorMessage(code)| > 10;
    }
  }

  /** The message of an unknown code carries the code itself. */
  lemma UnknownMessage(code: int)
    requires !IsKnownError(code)
    ensures var s := ErrorMessage(code);
      |s| > |UnknownErrorPrefix| && s[..|UnknownErrorPrefix|] == UnknownErrorPrefix
      && s[|s| - 1] == ')' && s[|UnknownErrorPrefix|..|s| - 1] == IntToString(code)
  {
  }

  /** Different codes never share a message. */
  lemma ErrorMessageInjective(a: int, b: int)
    requires ErrorMessage(a) == ErrorMessage(b)
    ensures a == b
  {
    ErrorMessageDecodes(a);
    ErrorMessageDecodes(b);
    if !IsKnownError(a) && !IsKnownError(b) {
      UnknownMessage(a);
      UnknownMessage(b);
      IntToStringInjective(a, b);
    }
  }

  /**
   * "No match" and "client" errors are routine ends of a session; they reach
   * only the code-aware callback, every other code also the plain one.
   */
  predicate ReportsPlainError(code: int) {
    code != ErrorNoMatch && code != ErrorClient
  }

  /** The top recognition candidate with surrounding white space removed. */
  function FirstTrimmed(matches: Option<seq<string>>): (text: Option<string>)
    ensures text.Some? <==> matches.Some? && |matches.value| > 0
    ensures text.Some? ==> text.value == Trim(matches.value[0])
    ensures text.Some? ==> (text.value == [] <==> IsBlank(matches.value[0]))
  {
    if matches.Some? && |matches.value| > 0 then Some(Trim(matches.value[0])) else None
  }

  predicate IsUsable(text: Option<string>) {
    text.Some? && !IsBlank(text.value)
  }

  /**
   * The transcript delivered at the end of a session: the final candidate when
   * it has content, otherwise the last partial transcript when that has content.
   */
  function FinalText(text: Option<string>, lastPartial: Option<string>): (r: Option<string>)
    ensures r.Some? <==> IsUsable(text) || IsUsable(lastPartial)
    ensures r.Some? ==> !IsBlank(r.value)
    ensures IsUsable(text) ==> r == text
    ensures !IsUsable(text) && IsUsable(lastPartial) ==> r == lastPartial
  {
    if IsUsable(text) then text
    else if IsUsable(lastPartial) then lastPartial
    else None
  }

  /** What the manager hands to its callbacks, in order. */
  datatype SttEvent =
    | ResultDelivered(text: string)
    | ErrorReported(message: string)
    | ErrorWithCodeReported(message: string, code: int)
    | ListeningChanged(listening: bool)

  /** The events `onError` emits for a recogniser error code. */
  function ErrorEvents(code: int, hasErrorWithCode: bool): (evs: seq<SttEvent>)
    ensures |evs| >= 1 && evs[0] == ListeningChanged(false)
    ensures ErrorWithCodeReported(ErrorMessage(code), code) in evs <==> hasErrorWithCode
    ensures ErrorReported(ErrorMessage(code)) in evs <==> ReportsPlainError(code)
    ensures forall e | e in evs :: e.ListeningChanged? ==> !e.listening
  {
    var msg := ErrorMessage(code);
    [ListeningChanged(false)]
      + (if hasErrorWithCode then [ErrorWithCodeReported(msg, code)] else [])
      + (if ReportsPlainError(code) then [ErrorReported(msg)] else [])
  }

  /** A cached partial transcript is always trimmed and has content. */
  predicate CachedPartial(p: Option<string>) {
    p.Some? ==> p.value != [] && !IsWhitespace(p.value[0]) && !IsWhitespace(p.value[|p.value| - 1])
  }

  /** With a well-formed cache, a finished session always empties the cache. */
  lemma ResultsEmptyCache(text: Option<string>, lastPartial: Option<string>)
    requires CachedPartial(lastPartial)
    ensures lastPartial.Some? ==> FinalText(text, lastPartial).Some?
  {
  }

  /** A partial transcript with content is fit for the cache. */
  lemma PartialIsCacheable(matches: Option<seq<string>>)
    requires IsUsable(FirstTrimmed(matches))
    ensures CachedPartial(FirstTrimmed(matches))
  {
  }

  class STTManager {
    /** Whether the optional code-aware error callback was supplied. */
    const hasErrorWithCode: bool
    var hasRecognizer: bool
    var isListening: bool
    var lastPartialText: Option<string>
    /** Every callback invocation so far, in order. */
    var emitted: seq<SttEvent>

    ghost predicate Valid()
      reads this
    {
      CachedPartial(lastPartialText) && (isListening ==> hasRecognizer)
    }

    constructor(hasErrorWithCode: bool)
      ensures this.hasErrorWithCode == hasErrorWithCode
      ensures !hasRecognizer && !isListening
      ensures lastPartialText == None && emitted == []
      ensures Valid()
    {
      this.hasErrorWithCode := hasErrorWithCode;
      hasRecognizer := false;
      isListening := false;
      lastPartialText := None;
      emitted := [];
    }

    /** Creates the recogniser when the platform offers one. */
    method Init(available: bool) returns (ok: bool)
      requires Valid()
      modifies this
      ensures Valid()
      ensures ok == available
      ensures available ==> hasRecognizer && emitted == old(emitted)
      ensures !available ==>
        hasRecognizer == old(hasRecognizer) && emitted == old(emitted) + [ErrorReported(UnsupportedMessage)]
      ensures isListening == old(isListening) && lastPartialText == old(lastPartialText)
    {
      if !available {
        emitted := emitted + [ErrorReported(UnsupportedMessage)];
        return false;
      }
      hasRecognizer := true;
      return true;
    }

    /** Marks the session as over and tells the listener. */
    method EndSession()
      requires Valid()
      modifies this
      ensures Valid()
      ensures !isListening && emitted == old(emitted) + [ListeningChanged(false)]
      ensures hasRecognizer == old(hasRecognizer) && lastPartialText == old(lastPartialText)
    {
      isListening := false;
      emitted := emitted + [ListeningChanged(false)];
    }

    /**
     * Starts a session. `permissionGranted` is the microphone permission check;
     * `startFailure` is the message of the exception the recogniser's start
     * throws, if it throws.
     */
    method StartListening(permissionGranted: bool, startFailure: Option<string>)
      requires Valid()
      modifies this
      ensures Valid()
      ensures hasRecognizer == old(hasRecognizer) && lastPartialText == old(lastPartialText)
      ensures !old(hasRecognizer) ==>
        isListening == old(isListening) && emitted == old(emitted) + [ErrorReported(NotInitializedMessage)]
      ensures old(hasRecognizer) && !permissionGranted ==>
        isListening == old(isListening) && emitted == old(emitted) + [ErrorReported(PermissionRequiredMessage)]
      ensures old(hasRecognizer) && permissionGranted ==>
        (isListening <==> startFailure.None?)
        && emitted == old(emitted) + [ListeningChanged(false)]
          + (if startFailure.None? then [ListeningChanged(true)]
             else [ErrorReported(StartFailedPrefix + startFailure.value)])
    {
      if !hasRecognizer {
        emitted := emitted + [ErrorReported(NotInitializedMessage)];
        return;
      }
      if !permissionGranted {
        emitted := emitted + [ErrorReported(PermissionRequiredMessage)];
        return;
      }
      EndSession();
      if startFailure.None? {
        isListening := true;
        emitted := emitted + [ListeningChanged(true)];
      } else {
        emitted := emitted + [ErrorReported(StartFailedPrefix + startFailure.value)];
      }
    }

    /**
     * Stops (or cancels) the session. `recognizerThrows` says whether the
     * recogniser's stop call throws; the exception is swallowed and nothing changes.
     */
    method StopListening(recognizerThrows: bool)
      requires Valid()
      modifies this
      ensures Valid()
      ensures old(hasRecognizer) && recognizerThrows ==> unchanged(this)
      ensures !(old(hasRecognizer) && recognizerThrows) ==>
        !isListening && emitted == old(emitted) + [ListeningChanged(false)]
      ensures hasRecognizer == old(hasRecognizer) && lastPartialText == old(lastPartialText)
    {
      if hasRecognizer && recognizerThrows {
        return;
      }
      EndSession();
    }

    method CancelListening(recognizerThrows: bool)
      requires Valid()
      modifies this
      ensures Valid()
      ensures old(hasRecognizer) && recognizerThrows ==> unchanged(this)
      ensures !(old(hasRecognizer) && recognizerThrows) ==>
        !isListening && emitted == old(emitted) + [ListeningChanged(false)]
      ensures hasRecognizer == old(hasRecognizer) && lastPartialText == old(lastPartialText)
    {
      if hasRecognizer && recognizerThrows {
        return;
      }
      EndSession();
    }

    method IsListening() returns (listening: bool)
      requires Valid()
      ensures listening ==> hasRecognizer
      ensures listening == isListening
    {
      listening := isListening;
    }

    /** Destroys the recogniser; a throwing destroy leaves everything as it was. */
    method Release(recognizerThrows: bool)
      requires Valid()
      modifies this
      ensures Valid()
      ensures old(hasRecognizer) && recognizerThrows ==> unchanged(this)
      ensures !(old(hasRecognizer) && recognizerThrows) ==>
        !hasRecognizer && !isListening && emitted == old(emitted) + [ListeningChanged(false)]
      ensures lastPartialText == old(lastPartialText)
    {
      if hasRecognizer && recognizerThrows {
        return;
      }
      EndSession();
      hasRecognizer := false;
    }

    method OnEndOfSpeech()
      requires Valid()
      modifies this
      ensures Valid()
      ensures !isListening && emitted == old(emitted) + [ListeningChanged(false)]
      ensures hasRecognizer == old(hasRecognizer) && lastPartialText == old(lastPartialText)
    {
      EndSession();
    }

    method OnError(code: int)
      requires Valid()
      modifies this
      ensures Valid()
      ensures !isListening && emitted == old(emitted) + ErrorEvents(code, hasErrorWithCode)
      ensures hasRecognizer == old(hasRecognizer) && lastPartialText == old(lastPartialText)
    {
      EndSession();
      var msg := ErrorMessage(code);
      if hasErrorWithCode {
        emitted := emitted + [ErrorWithCodeReported(msg, code)];
      }
      if ReportsPlainError(code) {
        emitted := emitted + [ErrorReported(msg)];
      }
    }

    /** `matches` is the recogniser's candidate list, None when absent. */
    method OnResults(matches: Option<seq<string>>)
      requires Valid()
      modifies this
      ensures Valid()
      ensures var f := FinalText(FirstTrimmed(matches), old(lastPartialText));
        if f.Some? then
          lastPartialText == None
          && emitted == old(emitted) + [ResultDelivered(f.value), ListeningChanged(false)]
        else
          lastPartialText == old(lastPartialText)
          && emitted == old(emitted) + [ErrorReported(NothingRecognizedMessage), ListeningChanged(false)]
      ensures lastPartialText == None
      ensures !isListening && hasRecognizer == old(hasRecognizer)
    {
      ResultsEmptyCache(FirstTrimmed(matches), lastPartialText);
      var finalText := FinalText(FirstTrimmed(matches), lastPartialText);
      if finalText.Some? {
        emitted := emitted + [ResultDelivered(finalText.value)];
        lastPartialText := None;
      } else {
        emitted := emitted + [ErrorReported(NothingRecognizedMessage)];
      }
      EndSession();
    }

    method OnPartialResults(matches: Option<seq<string>>)
      requires Valid()
      modifies this
      ensures Valid()
      ensures var text := FirstTrimmed(matches);
        lastPartialText == (if IsUsable(text) then text else old(lastPartialText))
      ensures isListening == old(isListening) && hasRecognizer == old(hasRecognizer)
      ensures emitted == old(emitted)
    {
      var text := FirstTrimmed(matches);
      if IsUsable(text) {
        PartialIsCacheable(matches);
        lastPartialText := text;
      }
    }
  }
}
