/** File intake: the drop zone accepts a dropped or picked file, refuses any
    file whose media type is not `audio/...`, and turns the data URL that the
    file reader produced into the base64 payload of an `AudioFile`. The reader
    itself and `URL.createObjectURL` are browser primitives: the data URL is an
    input, and the object URL of a file is `FileUrl(file)`. */
module FileDropzone {
  import opened Types

  const AUDIO_PREFIX := "audio/"

  predicate StartsWith(s: string, prefix: string)
  {
    |prefix| <= |s| && s[..|prefix|] == prefix
  }

  /** `type.startsWith('audio/')`: the type is `audio/` followed by any
      subtype, possibly empty. */
  predicate IsAudioType(mediaType: string)
    ensures IsAudioType(mediaType) <==>
      |mediaType| >= |AUDIO_PREFIX| && mediaType == AUDIO_PREFIX + mediaType[|AUDIO_PREFIX|..]
  {
    StartsWith(mediaType, AUDIO_PREFIX)
  }

  // ---------------------------------------------------------------------------
  // Splitting a data URL on ','

  /** `s` holds no ','. */
  predicate CommaFree(s: string)
  {
    forall j :: 0 <= j < |s| ==> s[j] != ','
  }

  /** `s.indexOf(',')`: the position of the first ',' in `s`, if any. */
  function FindComma(s: string): (i: Option<nat>)
    ensures i.None? <==> CommaFree(s)
    ensures i.Some? ==> i.value < |s| && s[i.value] == ',' && CommaFree(s[..i.value])
  {
    if |s| == 0 then None
    else if s[0] == ',' then Some(0)
    else match FindComma(s[1..])
      case None => None
      case Some(k) =>
        assert s[..k + 1] == [s[0]] + s[1..][..k];
        Some(k + 1)
  }

  /** `s.split(',')`: the maximal comma-free segments, in order. */
  function Split(s: string): (parts: seq<string>)
    ensures |parts| >= 1
    ensures |parts| == 1 <==> CommaFree(s)
    ensures parts[0] == if CommaFree(s) then s else s[..FindComma(s).value]
    ensures !CommaFree(s) ==> parts[1..] == Split(s[FindComma(s).value + 1..])
    decreases |s|
  {
    match FindComma(s)
    case None => [s]
    case Some(i) => [s[..i]] + Split(s[i + 1..])
  }

  /** `parts.join(',')`: the inverse of `Split`. */
  function Join(parts: seq<string>): string
    requires |parts| >= 1
  {
    if |parts| == 1 then parts[0] else parts[0] + "," + Join(parts[1..])
  }

  /** Every segment of a split is comma-free. */
  lemma {:induction false} SplitSegmentsCommaFree(s: string)
    ensures forall k :: 0 <= k < |Split(s)| ==> CommaFree(Split(s)[k])
    decreases |s|
  {
    match FindComma(s)
    case None =>
    case Some(i) =>
      SplitSegmentsCommaFree(s[i + 1..]);
      assert Split(s) == [s[..i]] + Split(s[i + 1..]);
  }

  /** Splitting loses nothing: joining the segments back gives the string. */
  lemma {:induction false} SplitJoin(s: string)
    ensures Join(Split(s)) == s
    decreases |s|
  {
    match FindComma(s)
    case None =>
    case Some(i) =>
      var rest := s[i + 1..];
      SplitJoin(rest);
      var parts := Split(s);
      assert parts == [s[..i]] + Split(rest);
      assert parts[1..] == Split(rest);
      assert Join(parts) == s[..i] + "," + rest;
      CutAtComma(s, i);
  }

  lemma CutAtComma(s: string, i: nat)
    requires i < |s| && s[i] == ','
    ensures s == s[..i] + "," + s[i + 1..]
  {
  }

  /** `dataUrl.split(',')[1]`: the segment after the first comma, up to the
      next comma if there is one; absent (`undefined`) without a comma. */
  function DataUrlPayload(dataUrl: string): (payload: Option<string>)
    ensures payload.None? <==> CommaFree(dataUrl)
    ensures payload.Some? ==> CommaFree(payload.value)
    ensures payload.Some? ==>
      var start := FindComma(dataUrl).value + 1;
      var end := start + |payload.value|;
      && end <= |dataUrl|
      && dataUrl[start..end] == payload.value
      && (end == |dataUrl| || dataUrl[end] == ',')
  {
    match FindComma(dataUrl)
    case None => None
    case Some(i) =>
      var rest := dataUrl[i + 1..];
      var p := Split(rest)[0];
      FirstSegmentOf(rest);
      assert dataUrl[i + 1..i + 1 + |p|] == rest[..|p|];
      Some(p)
  }

  /** The payload is segment 1 of the split, when there is one. */
  lemma PayloadIsSecondSegment(dataUrl: string)
    ensures DataUrlPayload(dataUrl) == if |Split(dataUrl)| > 1 then Some(Split(dataUrl)[1]) else None
  {
    if !CommaFree(dataUrl) {
      var parts := Split(dataUrl);
      assert parts[1] == parts[1..][0];
    }
  }

  /** The first segment of a split is a comma-free prefix that ends at a
      comma or at the end of the string. */
  lemma FirstSegmentOf(s: string)
    ensures var p := Split(s)[0];
      && |p| <= |s| && s[..|p|] == p && CommaFree(p)
      && (|p| == |s| || s[|p|] == ',')
  {
  }

  /** The data URL the file reader produces (RFC 2397, section 3, with the
      `;base64` marker). */
  function DataUrl(mediaType: string, base64: string): string
  {
    "data:" + mediaType + ";base64," + base64
  }

  /** Stripping the header gives back the encoded data: base64 text never
      contains a comma, and neither does a media type without parameters. */
  lemma DataUrlRoundTrip(mediaType: string, base64: string)
    requires CommaFree(mediaType) && CommaFree(base64)
    ensures DataUrlPayload(DataUrl(mediaType, base64)) == Some(base64)
  {
    var header := "data:" + mediaType + ";base64";
    var url := DataUrl(mediaType, base64);
    assert url == header + "," + base64;
    assert url[|header|] == ',';
    assert CommaFree(header) by {
      forall k | 0 <= k < |header| ensures header[k] != ',' {
        if 5 <= k < 5 + |mediaType| { assert header[k] == mediaType[k - 5]; }
      }
    }
    assert url[..|header|] == header;
    assert FindComma(url) == Some(|header|);
    assert url[|header| + 1..] == base64;
  }

  // ---------------------------------------------------------------------------
  // Processing a selected file

  /** `processFile`: a file whose type is not `audio/...` is refused before
      any read; otherwise the reader's data URL becomes an `AudioFile` that
      keeps the file's name and type. `dataUrl` is what `readAsDataURL`
      delivered for an audio file; it always holds the comma of its header. */
  function ProcessFile(file: File, dataUrl: string): (audio: Option<AudioFile>)
    requires IsAudioType(file.mediaType) ==> !CommaFree(dataUrl)
    ensures audio.None? <==> !IsAudioType(file.mediaType)
    ensures audio.Some? ==>
      && audio.value.name == file.name
      && audio.value.mimeType == file.mediaType
      && audio.value.url == FileUrl(file)
      && DataUrlPayload(dataUrl) == Some(audio.value.base64)
  {
    if !IsAudioType(file.mediaType) then None
    else Some(AudioFile(file.name, FileUrl(file), DataUrlPayload(dataUrl).value, file.mediaType))
  }

  /** `files && files[0]`: the first file of a selection, if any. */
  function FirstFile(files: Option<seq<File>>): (first: Option<File>)
    ensures first.Some? <==> files.Some? && |files.value| > 0
    ensures first.Some? ==> first.value == files.value[0]
  {
    if files.Some? && |files.value| > 0 then Some(files.value[0]) else None
  }

  /** The reader's result for the file a selection would process holds a comma. */
  predicate ReaderDelivers(files: Option<seq<File>>, dataUrl: string)
  {
    FirstFile(files).Some? && IsAudioType(FirstFile(files).value.mediaType) ==> !CommaFree(dataUrl)
  }

  /** What a selection passes to `onFileSelected`: only its first file is
      processed, and nothing happens for an empty selection. */
  function SelectFile(files: Option<seq<File>>, dataUrl: string): (selected: Option<AudioFile>)
    requires ReaderDelivers(files, dataUrl)
    ensures selected.Some? <==> FirstFile(files).Some? && IsAudioType(FirstFile(files).value.mediaType)
    ensures selected.Some? ==> selected == ProcessFile(files.value[0], dataUrl)
  {
    match FirstFile(files)
    case None => None
    case Some(file) => ProcessFile(file, dataUrl)
  }

  /** A plain-text file is refused, whatever its name says. */
  lemma TextFileRefused(dataUrl: string)
    ensures !IsAudioType("text/plain")
    ensures ProcessFile(File("track.mp3", "text/plain"), dataUrl) == None
  {
    assert "text/plain"[..6] != AUDIO_PREFIX by { assert "text/plain"[0] == 't'; }
  }

  // ---------------------------------------------------------------------------
  // The drop zone component

  class Dropzone {
    /** Whether a drag is hovering over the zone (drives the highlight). */
    var isDragging: bool
    /** The `disabled` property the zone was rendered with. */
    const disabled: bool

    constructor (disabled: bool)
      ensures this.disabled == disabled && !isDragging
    {
      this.disabled := disabled;
      isDragging := false;
    }

    /** `handleDragOver`: highlight only when enabled. */
    method HandleDragOver()
      modifies this
      ensures isDragging == (old(isDragging) || !disabled)
    {
      if !disabled {
        isDragging := true;
      }
    }

    /** `handleDragLeave` */
    method HandleDragLeave()
      modifies this
      ensures !isDragging
    {
      isDragging := false;
    }

    /** `handleDrop`: the highlight is cleared first; a disabled zone then
        ignores the drop. */
    method HandleDrop(files: Option<seq<File>>, dataUrl: string) returns (selected: Option<AudioFile>)
      requires ReaderDelivers(files, dataUrl)
      modifies this
      ensures !isDragging
      ensures selected == if disabled then None else SelectFile(files, dataUrl)
    {
      isDragging := false;
      if disabled {
        return None;
      }
      selected := SelectFile(files, dataUrl);
    }

    /** `handleInputChange`: the picker's selection, which the handler itself
        does not check against `disabled`. */
    method HandleInputChange(files: Option<seq<File>>, dataUrl: string) returns (selected: Option<AudioFile>)
      requires ReaderDelivers(files, dataUrl)
      ensures selected == SelectFile(files, dataUrl)
      ensures selected.Some? <==> FirstFile(files).Some? && IsAudioType(files.value[0].mediaType)
      ensures selected.Some? ==>
        && selected.value.name == files.value[0].name
        && selected.value.mimeType == files.value[0].mediaType
        && DataUrlPayload(dataUrl) == Some(selected.value.base64)
    {
      selected := SelectFile(files, dataUrl);
    }
  }
}
