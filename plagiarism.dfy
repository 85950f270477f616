/**
 * The plagiarism screen of the client: pick a document through the system picker, check that
 * the cached copy exists and can be read, send it to the plagiarism service and show the score,
 * or show one alert that classifies what went wrong. The picker, the file system and the service
 * are inputs; each call either answers or throws.
 */
module Plagiarism {
  import opened Wrappers
  import opened Text
  import opened Ui

  /** A thrown value: an `Error` with its message, or anything else. */
  datatype Thrown = ErrorObject(message: string) | OtherValue

  /** The file fields of a picker result or of one of its assets; absent ones are `None`. */
  datatype Asset = Asset(uri: Option<string>, name: Option<string>, size: Option<int>, mimeType: Option<string>)

  /** What `getDocumentAsync` resolves to: the newer `assets` list, or the fields at top level. */
  datatype PickerResult = PickerResult(canceled: bool, assets: Option<seq<Asset>>, top: Asset)

  datatype FileInfo = FileInfo(found: bool, size: Option<int>)

  /** The file system as the screen sees it, per URI: `getInfoAsync`, the 100-byte probe read
      and the full base64 read. */
  datatype Device = Device(
    info: string -> Result<FileInfo, Thrown>,
    probe: string -> Result<string, Thrown>,
    read: string -> Result<string, Thrown>)

  /** The normalised document kept after a successful pick (its `type` is always 'success'). */
  datatype SelectedFile = SelectedFile(name: Option<string>, uri: string, size: Option<int>, mimeType: Option<string>)

  datatype PlagiarismResult = PlagiarismResult(score: real, originalContent: real)

  datatype Screen = Screen(
    isUploading: bool,
    selectedFile: Option<SelectedFile>,
    result: Option<PlagiarismResult>,
    alerts: seq<Alert>)

  const PickFailed := "Failed to pick document. Please make sure the file is not corrupted and try again."
  const SelectFirst := "Please select a document first"
  const CheckFailedPrefix := "Failed to check plagiarism. "
  const MissingFile := "Selected file " + "does not exist" + " in the cache directory"
  const EmptyFile := "Selected file is " + "empty"
  const UnreadableFile := "Could not " + "read file " + "content"
  const ProbeFailed := "Could not read the selected file. Please try another file."

  /** JavaScript truthiness of a number that may be `undefined`. */
  predicate TruthyNumber(n: Option<int>)
  {
    n.Some? && n.value != 0
  }

  function OrNumber(a: Option<int>, b: Option<int>): Option<int>
  {
    if TruthyNumber(a) then a else b
  }

  /** `result.assets?.[0] || result`. */
  function SelectedAsset(r: PickerResult): Asset
  {
    if r.assets.Some? && |r.assets.value| > 0 then r.assets.value[0] else r.top
  }

  /** The URI a pick goes on with, when it goes on at all. */
  function PickedUri(r: PickerResult): (uri: Option<string>)
    ensures uri.Some? ==> uri.value != ""
  {
    if !r.canceled && (Truthy(SelectedAsset(r).uri) || Truthy(r.top.uri)) then Or(SelectedAsset(r).uri, r.top.uri)
    else None
  }

  /** The outcome of the steps of `pickDocument` after the picker answers: the normalised file,
      nothing when the pick was cancelled or had no URI, or the thrown value. */
  function PickOutcome(r: PickerResult, device: Device): Result<Option<SelectedFile>, Thrown>
  {
    match PickedUri(r)
    case None => Success(None)
    case Some(uri) =>
      match device.info(uri)
      case Failure(e) => Failure(e)
      case Success(info) =>
        if !info.found then Failure(ErrorObject(MissingFile))
        else if device.probe(uri).Failure? then Failure(ErrorObject(ProbeFailed))
        else
          var asset := SelectedAsset(r);
          Success(Some(SelectedFile(Or(asset.name, r.top.name), uri, OrNumber(asset.size, r.top.size),
                                    Or(asset.mimeType, r.top.mimeType))))
  }

  /** `pickDocument` on the screen state; `picker` is what `getDocumentAsync` does. */
  function PickSpec(s: Screen, picker: Result<PickerResult, Thrown>, device: Device): Screen
  {
    var outcome: Result<Option<SelectedFile>, Thrown> := if picker.Failure? then Failure(picker.error) else PickOutcome(picker.value, device);
    match outcome
    case Failure(_) => s.(alerts := s.alerts + [Alert("Error", PickFailed)])
    case Success(None) => s
    case Success(Some(file)) => s.(selectedFile := Some(file), result := None)
  }

  /** A pick either keeps the screen as it was, or replaces the document with one whose URI is
      the picked one and clears the old score, or adds the one generic alert and changes nothing
      else. */
  lemma PickOutcomes(s: Screen, picker: Result<PickerResult, Thrown>, device: Device)
    ensures var t := PickSpec(s, picker, device);
      || t == s
      || (t == s.(alerts := s.alerts + [Alert("Error", PickFailed)]))
      || (&& picker.Success? && PickedUri(picker.value).Some?
          && t.selectedFile.Some? && t.selectedFile.value.uri == PickedUri(picker.value).value
          && t.result.None? && t.alerts == s.alerts && t.isUploading == s.isUploading)
    ensures picker.Success? && picker.value.canceled ==> PickSpec(s, picker, device) == s
  {
  }

  /** The alert text for what a check threw; the first matching rule wins. */
  function FailureMessage(e: Thrown): (m: string)
    ensures CheckFailedPrefix <= m
    ensures e.OtherValue? ==> m == CheckFailedPrefix
    ensures e.ErrorObject? && !Contains(e.message, "Failed to authenticate") && !Contains(e.message, "Failed to upload")
            && !Contains(e.message, "Timeout") && !Contains(e.message, "does not exist") && !Contains(e.message, "empty")
            ==> m == CheckFailedPrefix + e.message
  {
    CheckFailedPrefix +
      match e
      case OtherValue => ""
      case ErrorObject(message) =>
        if Contains(message, "Failed to authenticate") then "Authentication failed. Please check your API credentials."
        else if Contains(message, "Failed to upload") then "Failed to upload document. Please try again."
        else if Contains(message, "Timeout") then "Request timed out. Please try again."
        else if Contains(message, "does not exist") then "The selected file could not be found. Please try selecting the file again."
        else if Contains(message, "empty") then "The selected file is empty. Please select a different file."
        else message
  }

  /** A missing cached copy is reported with the file-not-found text. */
  lemma MissingFileClassified()
    ensures FailureMessage(ErrorObject(MissingFile))
         == CheckFailedPrefix + "The selected file could not be found. Please try selecting the file again."
  {
    MissingCharRulesOut(MissingFile, "Failed to authenticate", 0);
    MissingCharRulesOut(MissingFile, "Failed to upload", 0);
    MissingCharRulesOut(MissingFile, "Timeout", 0);
    ContainsInfix("Selected file ", "does not exist", " in the cache directory");
  }

  /** An empty cached copy is reported with the empty-file text. */
  lemma EmptyFileClassified()
    ensures FailureMessage(ErrorObject(EmptyFile))
         == CheckFailedPrefix + "The selected file is empty. Please select a different file."
  {
    MissingCharRulesOut(EmptyFile, "Failed to authenticate", 0);
    MissingCharRulesOut(EmptyFile, "Failed to upload", 0);
    MissingCharRulesOut(EmptyFile, "Timeout", 0);
    MissingCharRulesOut(EmptyFile, "does not exist", 10);
    ContainsInfix("Selected file is ", "empty", "");
    assert "Selected file is " + "empty" + "" == EmptyFile;
  }

  /** An unreadable copy matches no rule, so its own message is shown after the prefix. */
  lemma UnreadableFileClassified()
    ensures FailureMessage(ErrorObject(UnreadableFile)) == CheckFailedPrefix + UnreadableFile
  {
    MissingCharRulesOut(UnreadableFile, "Failed to authenticate", 0);
    MissingCharRulesOut(UnreadableFile, "Failed to upload", 0);
    MissingCharRulesOut(UnreadableFile, "Timeout", 0);
    MissingCharRulesOut(UnreadableFile, "does not exist", 10);
    MissingCharRulesOut(UnreadableFile, "empty", 4);
  }

  /** The steps of `handleCheckPlagiarism` between raising and lowering the uploading flag. */
  function CheckOutcome(uri: string, device: Device, service: string -> Result<PlagiarismResult, Thrown>)
    : Result<PlagiarismResult, Thrown>
  {
    match device.info(uri)
    case Failure(e) => Failure(e)
    case Success(info) =>
      if !info.found then Failure(ErrorObject(MissingFile))
      else if !TruthyNumber(info.size) then Failure(ErrorObject(EmptyFile))
      else match device.read(uri)
        case Failure(e) => Failure(e)
        case Success(content) =>
          if content == "" then Failure(ErrorObject(UnreadableFile))
          else service(uri)
  }

  /** The check's steps run in order and the first that fails decides: a storage error from
      `getInfoAsync`, then a missing copy, then a falsy size, then a failed or empty read. The
      service is reached only when every step passed, and then its answer is the outcome. */
  lemma CheckOrder(uri: string, device: Device, service: string -> Result<PlagiarismResult, Thrown>)
    ensures var r := CheckOutcome(uri, device, service);
      r.Success? ==>
        && device.info(uri).Success? && device.info(uri).value.found && TruthyNumber(device.info(uri).value.size)
        && device.read(uri).Success? && device.read(uri).value != ""
        && r == service(uri)
    ensures device.info(uri).Failure? ==> CheckOutcome(uri, device, service) == Failure(device.info(uri).error)
    ensures device.info(uri).Success? && !device.info(uri).value.found ==>
              CheckOutcome(uri, device, service) == Failure(ErrorObject(MissingFile))
    ensures device.info(uri).Success? && device.info(uri).value.found && !TruthyNumber(device.info(uri).value.size) ==>
              CheckOutcome(uri, device, service) == Failure(ErrorObject(EmptyFile))
    ensures device.info(uri).Success? && device.info(uri).value.found && TruthyNumber(device.info(uri).value.size) ==>
              && (device.read(uri).Failure? ==> CheckOutcome(uri, device, service) == Failure(device.read(uri).error))
              && (device.read(uri) == Success("") ==> CheckOutcome(uri, device, service) == Failure(ErrorObject(UnreadableFile)))
              && (device.read(uri).Success? && device.read(uri).value != "" ==> CheckOutcome(uri, device, service) == service(uri))
  {
  }

  /** `handleCheckPlagiarism` on the screen state. */
  function CheckSpec(s: Screen, device: Device, service: string -> Result<PlagiarismResult, Thrown>): Screen
  {
    if s.selectedFile.None? then s.(alerts := s.alerts + [Alert("Error", SelectFirst)])
    else match CheckOutcome(s.selectedFile.value.uri, device, service)
      case Success(r) => s.(isUploading := false, result := Some(r))
      case Failure(e) => s.(isUploading := false, alerts := s.alerts + [Alert("Error", FailureMessage(e))])
  }

  /** Without a document the check only asks for one: the alert is added and nothing else changes,
      whatever the file system and the service would do. */
  lemma CheckWithoutDocument(s: Screen, device: Device, service: string -> Result<PlagiarismResult, Thrown>)
    requires s.selectedFile.None?
    ensures CheckSpec(s, device, service) == s.(alerts := s.alerts + [Alert("Error", SelectFirst)])
  {
  }

  /** A check with a document always ends with the flag down, and either shows the service's
      score without an alert or adds exactly one alert and keeps the previous score; the document
      itself is never changed. */
  lemma CheckSettles(s: Screen, device: Device, service: string -> Result<PlagiarismResult, Thrown>)
    requires s.selectedFile.Some?
    ensures var t := CheckSpec(s, device, service);
      && !t.isUploading && t.selectedFile == s.selectedFile
      && (|| (t.result.Some? && service(s.selectedFile.value.uri) == Success(t.result.value) && t.alerts == s.alerts)
          || (t.result == s.result && |t.alerts| == |s.alerts| + 1 && t.alerts[..|s.alerts|] == s.alerts
              && CheckFailedPrefix <= t.alerts[|s.alerts|].message))
  {
    var t := CheckSpec(s, device, service);
    if t.alerts != s.alerts {
      assert t.alerts[..|s.alerts|] == s.alerts;
    }
  }

  /** The check looks at the file again because the cached copy can change after the pick. When
      it is unchanged (`atCheck` reports it as `atPick` did), the picked file passes the existence
      step, and the check reports it missing only if reading it or the service throws that very
      error; when it has disappeared, the check reports it missing. */
  lemma PickedFileIsFound(r: PickerResult, atPick: Device, atCheck: Device,
                          service: string -> Result<PlagiarismResult, Thrown>)
    requires PickOutcome(r, atPick).Success? && PickOutcome(r, atPick).value.Some?
    ensures var file := PickOutcome(r, atPick).value.value;
      atCheck.info(file.uri) == atPick.info(file.uri) &&
      CheckOutcome(file.uri, atCheck, service) == Failure(ErrorObject(MissingFile)) ==>
        atCheck.read(file.uri) == Failure(ErrorObject(MissingFile)) || service(file.uri) == Failure(ErrorObject(MissingFile))
    ensures var file := PickOutcome(r, atPick).value.value;
      atCheck.info(file.uri).Success? && !atCheck.info(file.uri).value.found ==>
        CheckOutcome(file.uri, atCheck, service) == Failure(ErrorObject(MissingFile))
  {
    var file := PickOutcome(r, atPick).value.value;
    assert atPick.info(file.uri).Success? && atPick.info(file.uri).value.found;
    assert EmptyFile != MissingFile by { assert EmptyFile[14] != MissingFile[14]; }
    assert UnreadableFile != MissingFile by { assert UnreadableFile[0] != MissingFile[0]; }
  }

  /** The check button is enabled only with a document and while no check runs. */
  predicate CheckEnabled(s: Screen)
  {
    s.selectedFile.Some? && !s.isUploading
  }

  /** Through its enabled button a check never asks for a document first. */
  lemma EnabledCheckNeedsNoDocumentPrompt(s: Screen, device: Device, service: string -> Result<PlagiarismResult, Thrown>)
    requires CheckEnabled(s)
    ensures var t := CheckSpec(s, device, service);
      forall i | |s.alerts| <= i < |t.alerts| :: t.alerts[i].message != SelectFirst
  {
    var t := CheckSpec(s, device, service);
    forall i | |s.alerts| <= i < |t.alerts|
      ensures t.alerts[i].message != SelectFirst
    {
      var m := t.alerts[i].message;
      assert CheckFailedPrefix <= m;
      assert m[0] == 'F' && SelectFirst[0] == 'P';
    }
  }

  /** The score is shown in red above 20 percent, in green otherwise. */
  function ScoreColor(score: real): (color: string)
    ensures color == "#FF4444" <==> score > 20.0
    ensures color != "#FF4444" ==> color == "#4CAF50"
  {
    if score > 20.0 then "#FF4444" else "#4CAF50"
  }

  /** The screen's state. */
  class PlagiarismScreen {
    var isUploading: bool
    var selectedFile: Option<SelectedFile>
    var result: Option<PlagiarismResult>
    var alerts: seq<Alert>

    function State(): Screen
      reads this
    {
      Screen(isUploading, selectedFile, result, alerts)
    }

    constructor ()
      ensures State() == Screen(false, None, None, [])
    {
      isUploading := false;
      selectedFile := None;
      result := None;
      alerts := [];
    }

    /** `Alert.alert('Error', message)`. */
    method ShowError(message: string)
      modifies this
      ensures State() == old(State()).(alerts := old(alerts) + [Alert("Error", message)])
    {
      alerts := alerts + [Alert("Error", message)];
    }

    /** `pickDocument`. */
    method PickDocument(picker: Result<PickerResult, Thrown>, device: Device)
      modifies this
      ensures State() == PickSpec(old(State()), picker, device)
    {
      if picker.Failure? {
        ShowError(PickFailed);
        return;
      }
      var r := picker.value;
      var asset := SelectedAsset(r);
      if r.canceled || !(Truthy(asset.uri) || Truthy(r.top.uri)) {
        return;
      }
      var fileUri := Or(asset.uri, r.top.uri).value;
      var info := device.info(fileUri);
      if info.Failure? || !info.value.found {
        ShowError(PickFailed);
        return;
      }
      var probe := device.probe(fileUri);
      if probe.Failure? {
        ShowError(PickFailed);
        return;
      }
      var normalizedFile := SelectedFile(Or(asset.name, r.top.name), fileUri, OrNumber(asset.size, r.top.size),
                                         Or(asset.mimeType, r.top.mimeType));
      selectedFile := Some(normalizedFile);
      result := None;
    }

    /** `handleCheckPlagiarism`. */
    method HandleCheckPlagiarism(device: Device, service: string -> Result<PlagiarismResult, Thrown>)
      modifies this
      ensures State() == CheckSpec(old(State()), device, service)
    {
      if selectedFile.None? {
        ShowError(SelectFirst);
        return;
      }
      var uri := selectedFile.value.uri;
      isUploading := true;
      var failure: Option<Thrown> := None;
      var info := device.info(uri);
      if info.Failure? {
        failure := Some(info.error);
      } else if !info.value.found {
        failure := Some(ErrorObject(MissingFile));
      } else if !TruthyNumber(info.value.size) {
        failure := Some(ErrorObject(EmptyFile));
      } else {
        var content := device.read(uri);
        if content.Failure? {
          failure := Some(content.error);
        } else if content.value == "" {
          failure := Some(ErrorObject(UnreadableFile));
        } else {
          var checked := service(uri);
          if checked.Failure? {
            failure := Some(checked.error);
          } else {
            result := Some(checked.value);
          }
        }
      }
      if failure.Some? {
        ShowError(FailureMessage(failure.value));
      }
      isUploading := false;
    }
  }
}
