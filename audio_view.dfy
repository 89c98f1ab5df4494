/** The audio resource view plugin (`ckanext/audioview/plugin.py`): the list
    of formats it accepts, read once from the configuration, and the test
    whether a resource can be shown with an `<audio>` tag. */
module AudioViewPlugin {
  import opened PyValue
  import opened PyText

  const FormatsOption: string := "ckan.preview.audio_formats"
  const DefaultAudioFormats: string := "wav ogg mp3"

  /** The exceptions `can_view` lets escape. */
  datatype ViewError =
    | KeyError(key: string)          // `data_dict['resource']` is missing
    | AttributeError(name: string)   // a value without `get` or `lower`, or `formats` not yet set

  /** The dictionary `info` returns; the titles are the untranslated strings. */
  datatype ViewInfo = ViewInfo(
    name: string,
    title: string,
    icon: string,
    schema: map<string, seq<string>>,
    iframed: bool,
    alwaysAvailable: bool,
    defaultTitle: string)

  /** The format list `update_config` derives from the configuration: the
      whitespace-separated fields of the option, or of the default. */
  function ConfiguredFormats(config: map<string, string>): (formats: seq<string>)
    ensures forall k :: 0 <= k < |formats| ==> IsWord(formats[k])
  {
    var setting := if FormatsOption in config then config[FormatsOption] else DefaultAudioFormats;
    SplitGivesWords(setting);
    Split(setting)
  }

  /** Without the option the plugin accepts exactly `wav`, `ogg` and `mp3`. */
  lemma DefaultFormats(config: map<string, string>)
    requires FormatsOption !in config
    ensures ConfiguredFormats(config) == ["wav", "ogg", "mp3"]
  {
    var words := ["wav", "ogg", "mp3"];
    assert JoinWith(" ", words) == DefaultAudioFormats;
    assert IsWord("wav") && IsWord("ogg") && IsWord("mp3") by {
      AlphanumericIsWord("wav");
      AlphanumericIsWord("ogg");
      AlphanumericIsWord("mp3");
    }
    SplitJoin(words);
  }

  /** Lower-case letters and digits are not whitespace. */
  lemma AlphanumericIsWord(w: string)
    requires w != [] && forall i :: 0 <= i < |w| ==> 'a' <= w[i] <= 'z' || '0' <= w[i] <= '9'
    ensures IsWord(w)
  {
  }

  /** A configured list of words separated by single spaces is taken as it is. */
  lemma ConfiguredWords(config: map<string, string>, words: seq<string>)
    requires forall k :: 0 <= k < |words| ==> IsWord(words[k])
    requires FormatsOption in config && config[FormatsOption] == JoinWith(" ", words)
    ensures ConfiguredFormats(config) == words
  {
    SplitJoin(words);
  }

  /** `bytes.lower()`: ASCII letters only. */
  function LowerBytes(b: seq<bv8>): (r: seq<bv8>)
    ensures |r| == |b|
  {
    seq(|b|, i requires 0 <= i < |b| => if 0x41 <= b[i] <= 0x5a then b[i] + 0x20 else b[i])
  }

  /** `data_dict['resource'].get('format', '').lower()`. */
  function ResourceFormat(dataDict: map<string, Value>): (r: Result<Value, ViewError>)
    ensures r.Ok? && r.value.Str? ==> forall i :: 0 <= i < |r.value.s| ==> !IsUpper(r.value.s[i])
    ensures "resource" in dataDict && dataDict["resource"].Dict? && "format" !in dataDict["resource"].entries
      ==> r == Ok(Str(""))
  {
    if "resource" !in dataDict then Err(KeyError("resource"))
    else match dataDict["resource"]
      case Dict(entries) =>
        var format := if "format" in entries then entries["format"] else Str("");
        (match format
         case Str(s) => Ok(Str(Lower(s)))
         case Bytes(b) => Ok(Bytes(LowerBytes(b)))
         case _ => Err(AttributeError("lower")))
      case _ => Err(AttributeError("get"))
  }

  /** A format entry with an upper-case letter is never what a resource's format lowers to. */
  lemma UpperCaseEntryNeverMatches(dataDict: map<string, Value>, entry: string, i: int)
    requires 0 <= i < |entry| && IsUpper(entry[i])
    ensures ResourceFormat(dataDict) != Ok(Str(entry))
  {
  }

  class AudioView {
    /** `self.formats`; `None` until `update_config` has run. */
    var formats: Option<seq<string>>

    constructor ()
      ensures formats == None
    {
      formats := None;
    }

    /** `update_config`: read the format list (the template directory it
        registers is not modelled). */
    method UpdateConfig(config: map<string, string>)
      modifies this
      ensures formats == Some(ConfiguredFormats(config))
    {
      formats := Some(ConfiguredFormats(config));
    }

    /** `can_view`: the lower-cased format of the resource is one of the
        configured formats. The resource is looked at before `self.formats`. */
    function CanView(dataDict: map<string, Value>): (r: Result<bool, ViewError>)
      reads this
      ensures ResourceFormat(dataDict).Err? ==> r == Err(ResourceFormat(dataDict).error)
      ensures ResourceFormat(dataDict).Ok? && formats.None? ==> r == Err(AttributeError("formats"))
      ensures ResourceFormat(dataDict).Ok? && formats.Some? ==> r.Ok?
      ensures r == Ok(true) <==>
        && formats.Some?
        && ResourceFormat(dataDict).Ok? && ResourceFormat(dataDict).value.Str?
        && ResourceFormat(dataDict).value.s in formats.value
    {
      match ResourceFormat(dataDict)
      case Err(e) => Err(e)
      case Ok(format) =>
        if formats.None? then Err(AttributeError("formats"))
        else Ok(format.Str? && format.s in formats.value)
    }

    /** `info`. */
    function Info(): (r: ViewInfo)
      ensures r.name == "audio_view" && r.icon == "file-audio-o"
      ensures !r.iframed && r.alwaysAvailable
      ensures r.schema.Keys == {"audio_url"} && r.schema["audio_url"] == ["ignore_empty", "unicode_safe"]
      ensures r.title == r.defaultTitle == "Audio"
    {
      ViewInfo("audio_view", "Audio", "file-audio-o", map["audio_url" := ["ignore_empty", "unicode_safe"]],
        false, true, "Audio")
    }

    function ViewTemplate(context: Value, dataDict: map<string, Value>): string {
      "audio_view.html"
    }

    function FormTemplate(context: Value, dataDict: map<string, Value>): string {
      "audio_form.html"
    }
  }

  /** The templates are the same whatever the view is asked to show. */
  lemma TemplatesAreConstant(v: AudioView, c1: Value, d1: map<string, Value>, c2: Value, d2: map<string, Value>)
    ensures v.ViewTemplate(c1, d1) == v.ViewTemplate(c2, d2) == "audio_view.html"
    ensures v.FormTemplate(c1, d1) == v.FormTemplate(c2, d2) == "audio_form.html"
  {
  }

  /** A resource without a `format` is never viewable once the formats are configured. */
  lemma MissingFormatNotViewable(v: AudioView, config: map<string, string>, dataDict: map<string, Value>)
    requires v.formats == Some(ConfiguredFormats(config))
    requires "resource" in dataDict && dataDict["resource"].Dict? && "format" !in dataDict["resource"].entries
    ensures v.CanView(dataDict) == Ok(false)
  {
  }

  lemma LowerMp3()
    ensures Lower("MP3") == "mp3"
  {
    var low := Lower("MP3");
    assert |low| == 3 && low[0] == 'm' && low[1] == 'p' && low[2] == '3';
  }

  /** Case is folded on the resource side only: with the default formats an
      `MP3` resource is viewable. */
  lemma UpperCaseResourceViewable(v: AudioView, config: map<string, string>)
    requires FormatsOption !in config && v.formats == Some(ConfiguredFormats(config))
    ensures v.CanView(map["resource" := Dict(map["format" := Str("MP3")])]) == Ok(true)
  {
    DefaultFormats(config);
    LowerMp3();
    var formats := ["wav", "ogg", "mp3"];
    assert ResourceFormat(map["resource" := Dict(map["format" := Str("MP3")])]) == Ok(Str(formats[2]));
  }
}
