/** The payload builders of the desktop form: each turns the text of the
    fields of one tab into the string that is encoded, or rejects it. */
module Payloads {
  import opened Wrappers
  import opened Strings

  /** `urllib.parse.quote`, taken as given. */
  type Quote = string -> string

  /** The raw text of the input fields of the first four tabs. */
  datatype Form = Form(
    url: string,
    emailTo: string, emailCc: string, emailSubject: string, emailBody: string,
    phone: string,
    smsNumber: string, smsBody: string)

  // ---------------------------------------------------------------- URL tab

  /** The URL tab passes the stripped entry through; an empty one is refused. */
  function UrlPayload(entry: string): (r: Option<string>)
    ensures r.None? <==> AllSpace(entry)
    ensures r.Some? ==> r.value == Strip(entry) && r.value != [] && IsStripped(r.value)
  {
    StripEmptyIff(entry);
    var url := Strip(entry);
    if url == [] then None else Some(url)
  }

  // -------------------------------------------------------------- email tab

  /** One query parameter `key=quote(value)` (`assign` is the key with its
      "="), present only for a non-empty value. */
  function Param(assign: string, value: string, quote: Quote): seq<string> {
    if value == [] then [] else [assign + quote(value)]
  }

  /** The query parameters of a mailto URI, in the fixed order cc, subject, body. */
  function MailtoParams(cc: string, subject: string, body: string, quote: Quote): (r: seq<string>)
    ensures |r| == (if cc == [] then 0 else 1) + (if subject == [] then 0 else 1) + (if body == [] then 0 else 1)
    ensures cc != [] ==> r[0] == "cc=" + quote(cc)
    ensures subject != [] ==> r[if cc == [] then 0 else 1] == "subject=" + quote(subject)
    ensures body != [] ==> r[|r| - 1] == "body=" + quote(body)
  {
    Param("cc=", cc, quote) + Param("subject=", subject, quote) + Param("body=", body, quote)
  }

  /** "?" followed by the parameters joined with "&", or nothing at all. */
  function Query(params: seq<string>): (r: string)
    ensures r == [] <==> params == []
    ensures params != [] ==> r[0] == '?'
  {
    if params == [] then "" else "?" + Join("&", params)
  }

  /** The email tab's payload: `mailto:<to>` and the query of the non-empty
      optional fields, each field stripped first; an empty recipient is refused. */
  function MailtoUri(toEntry: string, ccEntry: string, subjectEntry: string, bodyText: string, quote: Quote): (r: Option<string>)
    ensures r.None? <==> AllSpace(toEntry)
    ensures r.Some? ==> StartsWith(r.value, "mailto:" + Strip(toEntry))
  {
    StripEmptyIff(toEntry);
    var to := Strip(toEntry);
    if to == [] then None
    else Some("mailto:" + to + Query(MailtoParams(Strip(ccEntry), Strip(subjectEntry), Strip(bodyText), quote)))
  }

  /** The email branch as the form runs it: strip the fields, refuse an
      empty recipient, then append the query. */
  method BuildMailto(toEntry: string, ccEntry: string, subjectEntry: string, bodyText: string, quote: Quote)
    returns (url: Option<string>)
    ensures url == MailtoUri(toEntry, ccEntry, subjectEntry, bodyText, quote)
  {
    var to := Strip(toEntry);
    if to == [] {
      return None;
    }
    var query := BuildMailtoQuery(Strip(ccEntry), Strip(subjectEntry), Strip(bodyText), quote);
    return Some("mailto:" + to + query);
  }

  /** The query as the form builds it: the parameter list grows by
      conditional appends and is joined only when it is non-empty. */
  method BuildMailtoQuery(cc: string, subject: string, body: string, quote: Quote) returns (query: string)
    ensures query == Query(MailtoParams(cc, subject, body, quote))
  {
    var params: seq<string> := [];
    if cc != [] {
      params := params + ["cc=" + quote(cc)];
    }
    assert params == Param("cc=", cc, quote);
    if subject != [] {
      params := params + ["subject=" + quote(subject)];
    }
    assert params == Param("cc=", cc, quote) + Param("subject=", subject, quote);
    if body != [] {
      params := params + ["body=" + quote(body)];
    }
    assert params == MailtoParams(cc, subject, body, quote);
    query := "";
    if params != [] {
      query := "?" + Join("&", params);
    }
  }

  /** A "?" follows the recipient exactly when some optional field is non-empty. */
  lemma MailtoQueryIff(cc: string, subject: string, body: string, quote: Quote)
    ensures Query(MailtoParams(cc, subject, body, quote)) != "" <==> (cc != [] || subject != [] || body != [])
    ensures Query(MailtoParams(cc, subject, body, quote)) != "" ==> Query(MailtoParams(cc, subject, body, quote))[0] == '?'
  {
  }

  /** A mailto URI read back: the recipient and the "&"-separated parameters. */
  datatype Mailto = Mailto(to: string, params: seq<string>)

  function ParseMailto(s: string): Option<Mailto> {
    if !StartsWith(s, "mailto:") then None
    else
      var rest := s[7..];
      match SplitAtFirst(rest, '?')
      case None => Some(Mailto(rest, []))
      case Some((to, query)) => Some(Mailto(to, Split(query, {'&'})))
  }

  lemma {:induction false} ParseMailtoOf(to: string, params: seq<string>)
    requires '?' !in to
    requires forall k :: 0 <= k < |params| ==> '&' !in params[k]
    ensures ParseMailto("mailto:" + to + Query(params)) == Some(Mailto(to, params))
  {
    var s := "mailto:" + to + Query(params);
    assert s[..7] == "mailto:";
    assert s[7..] == to + Query(params);
    if params == [] {
      assert to + Query(params) == to;
    } else {
      var joined := Join("&", params);
      forall k | 0 <= k < |params| ensures NoneIn(params[k], {'&'}) {
        assert '&' !in params[k];
      }
      SplitJoin(params, '&', {'&'});
      assert to + Query(params) == to + ['?'] + joined;
      SplitAtFirstOf(to, '?', joined);
    }
  }

  lemma ParamHasNoAmpersand(assign: string, value: string, quote: Quote)
    requires '&' !in assign && '&' !in quote(value)
    ensures forall k :: 0 <= k < |Param(assign, value, quote)| ==> '&' !in Param(assign, value, quote)[k]
  {
  }

  /** Reading the payload back gives the recipient and the parameters, as long
      as the recipient holds no "?" and no quoted value holds a "&". */
  lemma MailtoRoundTrip(toEntry: string, ccEntry: string, subjectEntry: string, bodyText: string, quote: Quote)
    requires '?' !in Strip(toEntry)
    requires '&' !in quote(Strip(ccEntry)) && '&' !in quote(Strip(subjectEntry)) && '&' !in quote(Strip(bodyText))
    ensures var r := MailtoUri(toEntry, ccEntry, subjectEntry, bodyText, quote);
            r.Some? ==>
              ParseMailto(r.value) ==
                Some(Mailto(Strip(toEntry), MailtoParams(Strip(ccEntry), Strip(subjectEntry), Strip(bodyText), quote)))
  {
    var cc, subject, body := Strip(ccEntry), Strip(subjectEntry), Strip(bodyText);
    MailtoParamsHaveNoAmpersand(cc, subject, body, quote);
    ParseMailtoOf(Strip(toEntry), MailtoParams(cc, subject, body, quote));
  }

  lemma MailtoParamsHaveNoAmpersand(cc: string, subject: string, body: string, quote: Quote)
    requires '&' !in quote(cc) && '&' !in quote(subject) && '&' !in quote(body)
    ensures var params := MailtoParams(cc, subject, body, quote);
            forall k :: 0 <= k < |params| ==> '&' !in params[k]
  {
    ParamHasNoAmpersand("cc=", cc, quote);
    ParamHasNoAmpersand("subject=", subject, quote);
    ParamHasNoAmpersand("body=", body, quote);
  }

  // -------------------------------------------------------------- phone tab

  /** The phone tab's payload `tel:<number>`; an empty number is refused. */
  function TelUri(numberEntry: string): (r: Option<string>)
    ensures r.None? <==> AllSpace(numberEntry)
    ensures r.Some? ==> ParseTel(r.value) == Some(Strip(numberEntry)) && Strip(numberEntry) != []
  {
    StripEmptyIff(numberEntry);
    var number := Strip(numberEntry);
    if number == [] then None else Some("tel:" + number)
  }

  function ParseTel(s: string): Option<string> {
    if StartsWith(s, "tel:") then Some(s[4..]) else None
  }

  // ---------------------------------------------------------------- SMS tab

  /** The SMS tab's payload: `sms:<number>`, followed by `?body=<quoted body>`
      when the body is non-empty; an empty number is refused. */
  function SmsUri(numberEntry: string, bodyText: string, quote: Quote): (r: Option<string>)
    ensures r.None? <==> AllSpace(numberEntry)
    ensures r.Some? ==> StartsWith(r.value, "sms:" + Strip(numberEntry))
    ensures r.Some? && Strip(bodyText) == [] ==> r.value == "sms:" + Strip(numberEntry)
  {
    StripEmptyIff(numberEntry);
    var number := Strip(numberEntry);
    if number == [] then None
    else
      var body := Strip(bodyText);
      if body != [] then Some("sms:" + number + "?body=" + quote(body))
      else Some("sms:" + number)
  }

  /** An SMS URI read back: the number and the (still quoted) body, if any. */
  datatype Sms = Sms(number: string, body: Option<string>)

  function ParseSms(s: string): Option<Sms> {
    if !StartsWith(s, "sms:") then None
    else
      var rest := s[4..];
      match SplitAtFirst(rest, '?')
      case None => Some(Sms(rest, None))
      case Some((number, query)) =>
        if StartsWith(query, "body=") then Some(Sms(number, Some(query[5..]))) else None
  }

  /** Reading the payload back gives the number, and the quoted body exactly
      when the body was non-empty, as long as the number holds no "?". */
  lemma SmsRoundTrip(numberEntry: string, bodyText: string, quote: Quote)
    requires '?' !in Strip(numberEntry)
    ensures var r := SmsUri(numberEntry, bodyText, quote);
            r.Some? ==>
              ParseSms(r.value) ==
                Some(Sms(Strip(numberEntry), if Strip(bodyText) == [] then None else Some(quote(Strip(bodyText)))))
  {
    var number, body := Strip(numberEntry), Strip(bodyText);
    if body != [] {
      ParseSmsBodyOf(number, quote(body));
    } else {
      ParseSmsPlainOf(number);
    }
  }

  lemma ParseSmsBodyOf(number: string, quoted: string)
    requires '?' !in number
    ensures ParseSms("sms:" + number + "?body=" + quoted) == Some(Sms(number, Some(quoted)))
  {
    var s := "sms:" + number + "?body=" + quoted;
    var query := "body=" + quoted;
    assert s[4..] == number + ['?'] + query;
    SplitAtFirstOf(number, '?', query);
  }

  lemma ParseSmsPlainOf(number: string)
    requires '?' !in number
    ensures ParseSms("sms:" + number) == Some(Sms(number, None))
  {
    assert ("sms:" + number)[4..] == number;
  }

  // ------------------------------------------------------------ tab dispatch

  /** The payload of the "generate" button for the selected tab; the last
      tab (WiFi and location) has buttons of its own and yields nothing. */
  function TabPayload(tab: nat, form: Form, quote: Quote): (r: Option<string>)
    ensures r.Some? ==> r.value != [] && tab < 4
  {
    if tab == 0 then UrlPayload(form.url)
    else if tab == 1 then MailtoUri(form.emailTo, form.emailCc, form.emailSubject, form.emailBody, quote)
    else if tab == 2 then TelUri(form.phone)
    else if tab == 3 then SmsUri(form.smsNumber, form.smsBody, quote)
    else None
  }

  /** The tab dispatch as the form runs it. */
  method BuildUrlFromTab(tab: nat, form: Form, quote: Quote) returns (url: Option<string>)
    ensures url == TabPayload(tab, form, quote)
  {
    if tab == 0 {
      url := UrlPayload(form.url);
    } else if tab == 1 {
      url := BuildMailto(form.emailTo, form.emailCc, form.emailSubject, form.emailBody, quote);
    } else if tab == 2 {
      url := TelUri(form.phone);
    } else if tab == 3 {
      url := SmsUri(form.smsNumber, form.smsBody, quote);
    } else {
      url := None;
    }
  }

  // ------------------------------------------------------------------- WiFi

  /** The values of the read-only encryption combobox. */
  const EncryptionChoices: seq<string> := ["WPA/WPA2", "WEP", "无"]

  /** The encryption map; a value outside it is a `KeyError`, here `None`. */
  function EncryptionCode(choice: string): (r: Option<string>)
    ensures r.Some? <==> choice in EncryptionChoices
    ensures r.Some? ==> r.value in ["WPA", "WEP", "nopass"]
    ensures r == Some("WPA") <==> choice == "WPA/WPA2"
    ensures r == Some("WEP") <==> choice == "WEP"
    ensures r == Some("nopass") <==> choice == "无"
  {
    if choice == "WPA/WPA2" then Some("WPA")
    else if choice == "WEP" then Some("WEP")
    else if choice == "无" then Some("nopass")
    else None
  }

  /** The WiFi string for an encryption code and stripped fields. */
  function WifiFormat(e: string, ssid: string, password: string): string {
    if e == "nopass" then "WIFI:T:nopass;S:" + ssid + ";;"
    else "WIFI:T:" + e + ";S:" + ssid + ";P:" + password + ";;"
  }

  /** Every WiFi string has the `WIFI:T:` prefix and the `;;` terminator. */
  lemma WifiFormatFrame(e: string, ssid: string, password: string)
    ensures StartsWith(WifiFormat(e, ssid, password), "WIFI:T:")
    ensures EndsWith(WifiFormat(e, ssid, password), ";;")
  {
    var r := WifiFormat(e, ssid, password);
    var mid := if e == "nopass" then "nopass;S:" + ssid else e + ";S:" + ssid + ";P:" + password;
    assert r == "WIFI:T:" + mid + ";;";
    assert r[..7] == "WIFI:T:";
    assert r[|r| - 2..] == ";;";
  }

  /** The WiFi payload `WIFI:T:<E>;S:<ssid>;P:<password>;;`, without the
      password part for an open network; an empty SSID is refused. Neither
      field is escaped. */
  function WifiString(ssidEntry: string, passwordEntry: string, choice: string): (r: Option<string>)
    ensures r.Some? <==> !AllSpace(ssidEntry) && choice in EncryptionChoices
    ensures r.Some? ==> StartsWith(r.value, "WIFI:T:") && EndsWith(r.value, ";;")
  {
    StripEmptyIff(ssidEntry);
    var ssid := Strip(ssidEntry);
    var password := Strip(passwordEntry);
    if ssid == [] then None
    else
      match EncryptionCode(choice)
      case None => None
      case Some(e) =>
        WifiFormatFrame(e, ssid, password);
        Some(WifiFormat(e, ssid, password))
  }

  /** A WiFi string read back. */
  datatype Wifi = Wifi(encryption: string, ssid: string, password: Option<string>)

  function ParseWifi(s: string): Option<Wifi> {
    if !StartsWith(s, "WIFI:T:") then None
    else
      match SplitAtFirst(s[7..], ';')
      case None => None
      case Some((t, afterT)) =>
        match ParseSsidPart(afterT)
        case None => None
        case Some((ssid, password)) => Some(Wifi(t, ssid, password))
  }

  /** `S:<ssid>;` followed by `;` or by `P:<password>;;`. */
  function ParseSsidPart(s: string): Option<(string, Option<string>)> {
    if !StartsWith(s, "S:") then None
    else
      match SplitAtFirst(s[2..], ';')
      case None => None
      case Some((ssid, afterS)) =>
        if afterS == ";" then Some((ssid, None))
        else
          match ParsePasswordPart(afterS)
          case None => None
          case Some(password) => Some((ssid, Some(password)))
  }

  /** `P:<password>;;` */
  function ParsePasswordPart(s: string): Option<string> {
    if !StartsWith(s, "P:") then None
    else
      match SplitAtFirst(s[2..], ';')
      case Some((password, rest)) => if rest == ";" then Some(password) else None
      case None => None
  }

  lemma ParsePasswordPartOf(password: string)
    requires ';' !in password
    ensures ParsePasswordPart("P:" + password + ";;") == Some(password)
  {
    var s := "P:" + password + ";;";
    assert s[..2] == "P:";
    assert s[2..] == password + [';'] + ";";
    SplitAtFirstOf(password, ';', ";");
  }

  lemma ParseSsidPartOf(ssid: string, tail: string, password: Option<string>)
    requires ';' !in ssid
    requires password.None? ==> tail == ";"
    requires password.Some? ==> tail == "P:" + password.value + ";;" && ';' !in password.value
    ensures ParseSsidPart("S:" + ssid + ";" + tail) == Some((ssid, password))
  {
    var s := "S:" + ssid + ";" + tail;
    assert s[..2] == "S:";
    assert s[2..] == ssid + [';'] + tail;
    SplitAtFirstOf(ssid, ';', tail);
    if password.Some? {
      assert tail != ";";
      ParsePasswordPartOf(password.value);
    }
  }

  lemma ParseWifiOf(e: string, ssid: string, password: string)
    requires ';' !in e && ';' !in ssid && ';' !in password
    ensures ParseWifi(WifiFormat(e, ssid, password)) ==
            Some(Wifi(e, ssid, if e == "nopass" then None else Some(password)))
  {
    var pw := if e == "nopass" then None else Some(password);
    var tail := if e == "nopass" then ";" else "P:" + password + ";;";
    var afterT := "S:" + ssid + ";" + tail;
    assert WifiFormat(e, ssid, password) == "WIFI:T:" + e + ";" + afterT;
    ParseSsidPartOf(ssid, tail, pw);
    ParseWifiHeadOf(e, afterT);
  }

  lemma ParseWifiHeadOf(e: string, afterT: string)
    requires ';' !in e
    ensures ParseWifi("WIFI:T:" + e + ";" + afterT) ==
            match ParseSsidPart(afterT)
            case None => None
            case Some((ssid, password)) => Some(Wifi(e, ssid, password))
  {
    var s := "WIFI:T:" + e + ";" + afterT;
    assert s[..7] == "WIFI:T:";
    assert s[7..] == e + [';'] + afterT;
    SplitAtFirstOf(e, ';', afterT);
  }

  /** Reading the payload back gives the encryption code, the SSID, and the
      password unless the network is open, as long as neither field holds a
      ";" (the builder escapes nothing). */
  lemma WifiRoundTrip(ssidEntry: string, passwordEntry: string, choice: string)
    requires ';' !in Strip(ssidEntry) && ';' !in Strip(passwordEntry)
    ensures var r := WifiString(ssidEntry, passwordEntry, choice);
            r.Some? ==>
              var e := EncryptionCode(choice).value;
              ParseWifi(r.value) ==
                Some(Wifi(e, Strip(ssidEntry), if e == "nopass" then None else Some(Strip(passwordEntry))))
  {
    var r := WifiString(ssidEntry, passwordEntry, choice);
    if r.Some? {
      var e := EncryptionCode(choice).value;
      assert ';' !in e;
      ParseWifiOf(e, Strip(ssidEntry), Strip(passwordEntry));
    }
  }

  /** Without escaping, a ";P:" inside the SSID passes for the start of the
      password: for an encrypted network, moving the text `middle` from the
      end of the SSID to the front of the password leaves the payload as it was. */
  lemma WifiUnescapedAmbiguity(ssid: string, middle: string, password: string, choice: string)
    requires choice in EncryptionChoices && choice != "无"
    requires ssid != [] && IsStripped(ssid) && IsStripped(middle) && password != [] && IsStripped(password)
    ensures ssid + ";P:" + middle != ssid
    ensures WifiString(ssid + ";P:" + middle, password, choice).Some?
    ensures WifiString(ssid + ";P:" + middle, password, choice) == WifiString(ssid, middle + ";P:" + password, choice)
  {
    var longSsid, longPassword := ssid + ";P:" + middle, middle + ";P:" + password;
    assert |longSsid| > |ssid|;
    assert longSsid[0] == ssid[0];
    assert longSsid[|longSsid| - 1] == if middle == [] then ':' else middle[|middle| - 1];
    assert longPassword[0] == if middle == [] then ';' else middle[0];
    assert longPassword[|longPassword| - 1] == password[|password| - 1];
    StripIdempotent(longSsid);
    StripIdempotent(longPassword);
    StripIdempotent(ssid);
    StripIdempotent(password);
    assert !AllSpace(longSsid) by {
      assert !IsSpace(longSsid[0]);
    }
    var e := EncryptionCode(choice).value;
    assert WifiString(longSsid, password, choice) == Some(WifiFormat(e, longSsid, password));
    assert WifiString(ssid, longPassword, choice) == Some(WifiFormat(e, ssid, longPassword));
    WifiFormatShift(e, ssid, middle, password);
  }

  lemma WifiFormatShift(e: string, ssid: string, middle: string, password: string)
    requires e != "nopass"
    ensures WifiFormat(e, ssid + ";P:" + middle, password) == WifiFormat(e, ssid, middle + ";P:" + password)
  {
    var head, sep := "WIFI:T:" + e + ";S:", ";P:";
    ConcatShift(head, ssid, sep, middle, password + ";;");
  }

  lemma ConcatShift(a: string, b: string, sep: string, c: string, d: string)
    ensures a + (b + sep + c) + sep + d == a + b + sep + (c + sep + d)
  {
  }

  // ---------------------------------------------------------------- location

  /** The location payload `geo:<lat>,<lng>`: both fields must be non-empty
      and both must be accepted by Python's `float`, here `isNumber`. */
  function GeoUri(latEntry: string, lngEntry: string, isNumber: string -> bool): (r: Option<string>)
    ensures r.Some? <==>
      !AllSpace(latEntry) && !AllSpace(lngEntry) && isNumber(Strip(latEntry)) && isNumber(Strip(lngEntry))
    ensures r.Some? ==> StartsWith(r.value, "geo:" + Strip(latEntry) + ",")
  {
    StripEmptyIff(latEntry);
    StripEmptyIff(lngEntry);
    var lat, lng := Strip(latEntry), Strip(lngEntry);
    if lat == [] || lng == [] then None
    else if !isNumber(lat) || !isNumber(lng) then None
    else Some("geo:" + lat + "," + lng)
  }

  /** A geo URI read back: the text before and after the first ",". */
  datatype Geo = Geo(lat: string, lng: string)

  function ParseGeo(s: string): Option<Geo> {
    if !StartsWith(s, "geo:") then None
    else
      match SplitAtFirst(s[4..], ',')
      case None => None
      case Some((lat, lng)) => Some(Geo(lat, lng))
  }

  /** Reading the payload back gives both coordinates as entered (stripped),
      as long as the latitude holds no ",". */
  lemma GeoRoundTrip(latEntry: string, lngEntry: string, isNumber: string -> bool)
    requires ',' !in Strip(latEntry)
    ensures var r := GeoUri(latEntry, lngEntry, isNumber);
            r.Some? ==> ParseGeo(r.value) == Some(Geo(Strip(latEntry), Strip(lngEntry)))
  {
    ParseGeoOf(Strip(latEntry), Strip(lngEntry));
  }

  lemma ParseGeoOf(lat: string, lng: string)
    requires ',' !in lat
    ensures ParseGeo("geo:" + lat + "," + lng) == Some(Geo(lat, lng))
  {
    assert ("geo:" + lat + "," + lng)[4..] == lat + [','] + lng;
    SplitAtFirstOf(lat, ',', lng);
  }
}
