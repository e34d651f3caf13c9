/** The pure decisions of the results panel: what the copy button writes, what the
    download link is called, and when the reprocess button asks for a new run. */
module ResultsDisplay {
  import opened Wrappers
  import opened Text

  /** The subtype piece used for the file extension: the second `/`-separated piece of the
      type, or `webm` when that piece is missing or empty. */
  function SubtypeOrDefault(mimeType: string): (sub: string)
    ensures '/' !in sub
    ensures '/' !in mimeType ==> sub == "webm"
  {
    var pieces := Split(mimeType, '/');
    if |pieces| > 1 && Truthy(pieces[1]) then pieces[1] else "webm"
  }

  /** The extension of a downloaded recording: `mp3` for MPEG audio, otherwise the subtype
      with any `;` parameters cut off. */
  function DownloadExtension(mimeType: string): (ext: string)
    ensures mimeType == "audio/mpeg" ==> ext == "mp3"
    ensures '/' !in ext && ';' !in ext
    ensures mimeType != "audio/mpeg" && '/' !in mimeType ==> ext == "webm"
  {
    if mimeType == "audio/mpeg" then "mp3" else Before(SubtypeOrDefault(mimeType), ';')
  }

  /** For a type `top/sub;params` the extension is `sub`. */
  lemma ExtensionOfParameterisedType(top: string, sub: string, params: string)
    requires '/' !in top && '/' !in sub && ';' !in sub && sub != []
    requires top + "/" + sub + ";" + params != "audio/mpeg"
    ensures DownloadExtension(top + "/" + sub + ";" + params) == sub
  {
    var rest := sub + ";" + params;
    assert top + "/" + sub + ";" + params == top + ['/'] + rest;
    SplitAtFirst(top, '/', rest);
    SplitHead(rest, '/');
    BeforeSlashKeepsSub(sub, params);
  }

  /** The part of `sub;params` before a `/` still begins with `sub;`. */
  lemma BeforeSlashKeepsSub(sub: string, params: string)
    requires '/' !in sub && ';' !in sub && sub != []
    ensures var p0 := Before(sub + ";" + params, '/');
      Truthy(p0) && Before(p0, ';') == sub
  {
    var p := Before(params, '/');
    BeforeFreePrefix(sub + ";", params, '/');
    assert Before(sub + ";" + params, '/') == sub + ";" + p;
    var rest := ";" + p;
    assert rest[0] == ';';
    assert Before(rest, ';') == [];
    BeforeFreePrefix(sub, rest, ';');
    assert sub + ";" + p == sub + rest;
    assert Before(sub + rest, ';') == sub + [];
  }

  /** The download name of the single-mode recording. */
  function DownloadName(audio: Option<string>): (name: Option<string>)
    ensures audio.None? <==> name.None?
    ensures audio.Some? ==> name.value == "audio-transcript." + DownloadExtension(audio.value)
  {
    match audio
    case None => None
    case Some(t) => Some("audio-transcript." + DownloadExtension(t))
  }

  /** What the copy button writes to the clipboard: nothing for an empty transcript. */
  function CopyPayload(transcript: string): (clip: Option<string>)
    ensures clip.Some? <==> transcript != []
    ensures clip.Some? ==> clip.value == transcript
  {
    if Truthy(transcript) then Some(transcript) else None
  }

  /** The reprocess button asks for a run only with a model other than the current one. */
  function ReprocessRequest(selectedModel: string, model: string): (request: Option<string>)
    ensures request.Some? <==> selectedModel != model
    ensures request.Some? ==> request.value == selectedModel && request.value != model
  {
    if selectedModel != model then Some(selectedModel) else None
  }
}
