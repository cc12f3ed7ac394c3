/** The application controller: the six state fields of the page and the
    handlers that update them. Each handler runs to completion; the remix
    handler is split at its one `await` into the part before the request
    (`BeginRemix`) and the part after it (`CompleteRemix`). */
module Controller {
  import opened Types
  import opened GeminiService

  /** The fixed, localized message shown for any remix failure. */
  const REMIX_ERROR_MESSAGE :=
    "Произошла ошибка при создании ремикса. Попробуйте другой файл или повторите позже."

  const DOWNLOAD_PREFIX := "remix-"

  /** The signals an audio element raises. */
  datatype MediaEvent = Play | Pause | Ended

  class App {
    var appState: AppState
    var inputFile: Option<AudioFile>
    var remixResult: Option<RemixResult>
    var errorMsg: string
    var isPlayingInput: bool
    var isPlayingRemix: bool

    /** The states the handlers can reach: `Uploading` never occurs, there is
        an input exactly when the page is not idle, a result only in `Ready`,
        an empty message while processing, and the fixed message in `Error`. */
    ghost predicate Valid()
      reads this
    {
      && appState != Uploading
      && (appState == Idle <==> inputFile.None?)
      && (remixResult.Some? ==> appState == Ready)
      && (appState == Processing ==> errorMsg == "")
      && (appState == Error ==> errorMsg == REMIX_ERROR_MESSAGE)
    }

    constructor ()
      ensures Valid()
      ensures appState == Idle && inputFile.None? && remixResult.None? && errorMsg == ""
      ensures !isPlayingInput && !isPlayingRemix
    {
      appState := Idle;
      inputFile := None;
      remixResult := None;
      errorMsg := "";
      isPlayingInput := false;
      isPlayingRemix := false;
    }

    /** `handleFileSelected`: the new input replaces any earlier one and its
        result; the error message is left as it was. */
    method HandleFileSelected(file: AudioFile)
      modifies this
      ensures Valid()
      ensures inputFile == Some(file) && appState == Ready && remixResult.None?
      ensures errorMsg == old(errorMsg)
      ensures isPlayingInput == old(isPlayingInput) && isPlayingRemix == old(isPlayingRemix)
    {
      inputFile := Some(file);
      appState := Ready;
      remixResult := None;
    }

    /** The remix action is offered for an input that has no result yet
        (the result view is up, and no result is shown in it). In every
        reachable state that is exactly a ready page without a result, and
        the action always has an input to send. */
    predicate RemixActionOffered()
      reads this
      ensures RemixActionOffered() ==> inputFile.Some? && remixResult.None? && DownloadName().None?
      ensures Valid() ==> (RemixActionOffered() <==> appState == Ready && remixResult.None?)
    {
      appState == Ready && inputFile.Some? && remixResult.None?
    }

    /** The first half of `handleStartRemix`, up to the request: without an
        input nothing changes; otherwise the page shows processing with an
        empty message and the input's payload and type are sent. */
    method BeginRemix() returns (request: Option<AudioFile>)
      requires Valid() && remixResult.None?
      modifies this
      ensures Valid()
      ensures request == old(inputFile)
      ensures old(inputFile).None? ==> unchanged(this)
      ensures old(inputFile).Some? ==> appState == Processing && errorMsg == ""
      ensures inputFile == old(inputFile) && remixResult == old(remixResult)
      ensures isPlayingInput == old(isPlayingInput) && isPlayingRemix == old(isPlayingRemix)
    {
      request := inputFile;
      if inputFile.None? {
        return;
      }
      appState := Processing;
      errorMsg := "";
    }

    /** The second half of `handleStartRemix`: a result is kept and the page
        is ready again; any failure shows the fixed message and keeps the
        input. */
    method CompleteRemix(outcome: Result<RemixResult, ThrownError>)
      requires Valid() && appState == Processing
      modifies this
      ensures Valid()
      ensures outcome.Success? ==>
        remixResult == Some(outcome.value) && appState == Ready && errorMsg == old(errorMsg)
      ensures outcome.Failure? ==>
        appState == Error && errorMsg == REMIX_ERROR_MESSAGE && remixResult == old(remixResult)
      ensures inputFile == old(inputFile)
      ensures isPlayingInput == old(isPlayingInput) && isPlayingRemix == old(isPlayingRemix)
    {
      match outcome
      case Success(result) =>
        remixResult := Some(result);
        appState := Ready;
      case Failure(_) =>
        appState := Error;
        errorMsg := REMIX_ERROR_MESSAGE;
    }

    /** `handleStartRemix`, with the service's replies supplied: the remix
        client runs on the input's payload and type, and its outcome decides
        the new state. Without an input no request is made. */
    method HandleStartRemix(apiKey: Option<string>, primary: Reply, analysis: Reply, tts: Reply)
      returns (calls: seq<RemoteCall>)
      requires Valid() && remixResult.None?
      modifies this
      ensures Valid()
      ensures old(inputFile).None? ==> unchanged(this) && calls == []
      ensures old(inputFile).Some? ==>
        var file := old(inputFile).value;
        var o := ProcessAudioRemix(apiKey, file.base64, file.mimeType, primary, analysis, tts);
        && calls == o.calls
        && (o.result.Success? ==> appState == Ready && remixResult == Some(o.result.value) && errorMsg == "")
        && (o.result.Failure? ==> appState == Error && remixResult.None? && errorMsg == REMIX_ERROR_MESSAGE)
      ensures inputFile == old(inputFile)
      ensures isPlayingInput == old(isPlayingInput) && isPlayingRemix == old(isPlayingRemix)
    {
      var request := BeginRemix();
      if request.None? {
        return [];
      }
      var file := request.value;
      var o := ProcessAudioRemix(apiKey, file.base64, file.mimeType, primary, analysis, tts);
      CompleteRemix(o.result);
      calls := o.calls;
    }

    /** `reset`: back to idle without input, result or playback; the error
        message is not cleared. */
    method Reset()
      modifies this
      ensures Valid()
      ensures appState == Idle && inputFile.None? && remixResult.None?
      ensures !isPlayingInput && !isPlayingRemix
      ensures errorMsg == old(errorMsg)
    {
      inputFile := None;
      remixResult := None;
      appState := Idle;
      isPlayingInput := false;
      isPlayingRemix := false;
    }

    /** The input element's listeners: play sets the flag, pause and ended
        clear it. */
    method OnInputAudioEvent(e: MediaEvent)
      modifies this`isPlayingInput
      ensures isPlayingInput <==> e == Play
    {
      isPlayingInput := e == Play;
    }

    /** The remix element's listeners: play sets the flag, pause and ended
        clear it. */
    method OnRemixAudioEvent(e: MediaEvent)
      modifies this`isPlayingRemix
      ensures isPlayingRemix <==> e == Play
    {
      isPlayingRemix := e == Play;
    }

    /** The download link of the result view, named after the input. */
    function DownloadName(): (name: Option<string>)
      reads this
      ensures name.Some? <==> appState == Ready && inputFile.Some? && remixResult.Some?
      ensures name.Some? ==>
        && |name.value| == |DOWNLOAD_PREFIX| + |inputFile.value.name|
        && name.value[..|DOWNLOAD_PREFIX|] == DOWNLOAD_PREFIX
        && name.value[|DOWNLOAD_PREFIX|..] == inputFile.value.name
    {
      if appState == Ready && inputFile.Some? && remixResult.Some? then
        Some(DOWNLOAD_PREFIX + inputFile.value.name)
      else None
    }
  }

  /** In every reachable state a result comes with its download link, and
      the remix action and the download link are never offered together. */
  lemma ResultIsDownloadable(app: App)
    requires app.Valid()
    ensures app.remixResult.Some? ==> app.DownloadName().Some?
    ensures !(app.RemixActionOffered() && app.DownloadName().Some?)
  {
  }
}
