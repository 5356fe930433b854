/** The desktop form's generation state: the payload last accepted
    (`current_url`) and the image file last written (`current_qr_path`). */
module Gui {
  import opened Wrappers
  import opened Strings
  import opened Numerals
  import opened Filenames
  import opened Encoder
  import opened Payloads

  /** The directory the form always writes into. */
  const SaveDir: string := "qr_codes"

  /** The values of the read-only error-correction combobox. */
  const LevelChoices: seq<string> := ["L (7%)", "M (15%)", "Q (25%)", "H (30%)"]

  /** The text of the settings widgets at the moment of generation: the size
      combobox, the error-correction combobox and the file name entry. */
  datatype Settings = Settings(size: string, errorCorrection: string, filename: string)

  /** The error-correction map; a value outside it is a `KeyError`, here `None`. */
  function ErrorCorrectionLevel(choice: string): (r: Option<Level>)
    ensures r.Some? <==> choice in LevelChoices
    ensures r == Some(L) <==> choice == "L (7%)"
    ensures r == Some(M) <==> choice == "M (15%)"
    ensures r == Some(Q) <==> choice == "Q (25%)"
    ensures r == Some(H) <==> choice == "H (30%)"
  {
    if choice == "L (7%)" then Some(L)
    else if choice == "M (15%)" then Some(M)
    else if choice == "Q (25%)" then Some(Q)
    else if choice == "H (30%)" then Some(H)
    else None
  }

  /** The encoder options: version 1 grown to fit, border 4, and the size and
      level read from the settings; `None` when either cannot be read. */
  function GuiOptions(settings: Settings): (r: Option<EncodeOptions>)
    ensures r.Some? <==> ParseInt(settings.size).Some? && settings.errorCorrection in LevelChoices
    ensures r.Some? ==> r.value.version == 1 && r.value.border == 4 && r.value.boxSize >= 0
    ensures r.Some? ==> Some(r.value.boxSize) == ParseInt(settings.size)
    ensures r.Some? ==> Some(r.value.level) == ErrorCorrectionLevel(settings.errorCorrection)
  {
    match (ParseInt(settings.size), ErrorCorrectionLevel(settings.errorCorrection))
    case (Some(box), Some(level)) => Some(EncodeOptions(1, level, box, 4))
    case _ => None
  }

  /** The path the image is written to: the stripped file name entry, forced
      to end in ".png", inside the save directory. */
  function GuiFilePath(filenameText: string): (r: string)
    ensures EndsWith(r, PngSuffix)
    ensures EndsWith(r, EnsurePng(Strip(filenameText)))
    ensures !StartsWith(Strip(filenameText), "/") ==> r == SaveDir + "/" + EnsurePng(Strip(filenameText))
  {
    var name := EnsurePng(Strip(filenameText));
    assert StartsWith(Strip(filenameText), "/") <==> StartsWith(name, "/");
    EndsWithTrans(PathJoin(SaveDir, name), name, PngSuffix);
    PathJoin(SaveDir, name)
  }

  /** A name entry left blank still writes a file, named ".png". */
  lemma GuiBlankFilename(filenameText: string)
    requires AllSpace(filenameText)
    ensures GuiFilePath(filenameText) == "qr_codes/.png"
  {
    StripEmptyIff(filenameText);
  }

  /** Whether generating an image for `data` with these settings gets as far
      as writing the file. */
  predicate Saved(data: string, settings: Settings, backend: Backend) {
    match GuiOptions(settings)
    case None => false
    case Some(options) => backend(data, options, GuiFilePath(settings.filename))
  }

  class QrCodeGeneratorGui {
    var currentUrl: Option<string>
    var currentQrPath: Option<string>

    /** An image path is only ever recorded after a payload was, and it
        always names a ".png" file. */
    predicate Valid()
      reads this
    {
      currentQrPath.Some? ==> currentUrl.Some? && EndsWith(currentQrPath.value, PngSuffix)
    }

    constructor ()
      ensures Valid()
      ensures currentUrl == None && currentQrPath == None
    {
      currentUrl := None;
      currentQrPath := None;
    }

    /** `_generate_qr_from_string`: any failure (unreadable settings, the
        encoder, the file system) is reported and changes nothing; on success
        the written path is recorded. Callers set `current_url` first. */
    method GenerateFromString(data: string, settings: Settings, backend: Backend)
      requires Valid() && currentUrl == Some(data)
      modifies this
      ensures Valid()
      ensures currentUrl == old(currentUrl)
      ensures currentQrPath ==
        if Saved(data, settings, backend) then Some(GuiFilePath(settings.filename)) else old(currentQrPath)
    {
      var options := GuiOptions(settings);
      if options.None? {
        return;
      }
      var filepath := GuiFilePath(settings.filename);
      if backend(data, options.value, filepath) {
        currentQrPath := Some(filepath);
      }
    }

    /** The main "generate" button: build the payload of the selected tab; if
        there is one, record it and generate its image. */
    method GenerateQrCode(tab: nat, form: Form, quote: Quote, settings: Settings, backend: Backend)
      requires Valid()
      modifies this
      ensures Valid()
      ensures var p := TabPayload(tab, form, quote);
              && currentUrl == (if p.Some? then p else old(currentUrl))
              && currentQrPath ==
                   (if p.Some? && Saved(p.value, settings, backend) then Some(GuiFilePath(settings.filename))
                    else old(currentQrPath))
    {
      var url := BuildUrlFromTab(tab, form, quote);
      if url.Some? && url.value != [] {
        currentUrl := url;
        GenerateFromString(url.value, settings, backend);
      }
    }

    /** The WiFi button: an empty SSID (or an encryption value outside the
        map) changes nothing; otherwise the WiFi string is recorded and its
        image generated. */
    method GenerateWifiQr(ssidEntry: string, passwordEntry: string, choice: string, settings: Settings, backend: Backend)
      requires Valid()
      modifies this
      ensures Valid()
      ensures var p := WifiString(ssidEntry, passwordEntry, choice);
              && currentUrl == (if p.Some? then p else old(currentUrl))
              && currentQrPath ==
                   (if p.Some? && Saved(p.value, settings, backend) then Some(GuiFilePath(settings.filename))
                    else old(currentQrPath))
    {
      var wifi := WifiString(ssidEntry, passwordEntry, choice);
      if wifi.None? {
        return;
      }
      currentUrl := wifi;
      GenerateFromString(wifi.value, settings, backend);
    }

    /** The location button: a missing or non-numeric coordinate changes
        nothing; otherwise the geo URI is recorded and its image generated. */
    method GenerateGeoQr(latEntry: string, lngEntry: string, isNumber: string -> bool, settings: Settings, backend: Backend)
      requires Valid()
      modifies this
      ensures Valid()
      ensures var p := GeoUri(latEntry, lngEntry, isNumber);
              && currentUrl == (if p.Some? then p else old(currentUrl))
              && currentQrPath ==
                   (if p.Some? && Saved(p.value, settings, backend) then Some(GuiFilePath(settings.filename))
                    else old(currentQrPath))
    {
      var geo := GeoUri(latEntry, lngEntry, isNumber);
      if geo.None? {
        return;
      }
      currentUrl := geo;
      GenerateFromString(geo.value, settings, backend);
    }
  }
}
