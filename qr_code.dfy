/** The QR code page: the text encoded for each tab, including the `WIFI:` payload, and the
    generation step around the QR library. */
module QrCode {
  import opened Wrappers
  import opened JsText

  datatype Tab = Link | Text | Wifi

  datatype WifiData = WifiData(ssid: string, password: string, encryption: string)

  const InitialInput := "https://easyconvert.hub"
  const InitialWifi := WifiData("", "", "WPA")
  const GenerateError := "Không thể tạo mã. Vui lòng kiểm tra lại nội dung."

  /** The network-join payload: `WIFI:T:<enc>;S:<ssid>;P:<password>;;`, or without the password
      field when the encryption is `nopass`. Nothing inside is escaped. */
  function WifiPayload(w: WifiData): (r: string)
    ensures w.encryption != "nopass" ==>
      r == "WIFI:T:" + w.encryption + ";S:" + w.ssid + ";P:" + w.password + ";;"
    ensures w.encryption == "nopass" ==> r == "WIFI:T:nopass;S:" + w.ssid + ";;"
  {
    if w.encryption == "nopass" then "WIFI:T:nopass;S:" + w.ssid + ";;"
    else "WIFI:T:" + w.encryption + ";S:" + w.ssid + ";P:" + w.password + ";;"
  }

  /** The text handed to the library for the active tab. */
  function Payload(tab: Tab, input: string, w: WifiData): string
  {
    match tab
    case Link => input
    case Text => input
    case Wifi => WifiPayload(w)
  }

  /** The link and text tabs encode the input exactly as typed. */
  lemma LinkAndTextVerbatim(input: string, w: WifiData)
    ensures Payload(Link, input, w) == input && Payload(Text, input, w) == input
  {
  }

  /** With `nopass` the password is not part of the payload. */
  lemma NopassIgnoresPassword(ssid: string, p1: string, p2: string)
    ensures WifiPayload(WifiData(ssid, p1, "nopass")) == WifiPayload(WifiData(ssid, p2, "nopass"))
  {
  }

  /** A WIFI payload is never blank, so the WIFI tab always reaches the library. */
  lemma WifiNeverBlank(w: WifiData)
    ensures Trim(Payload(Wifi, "", w)) != ""
  {
    var r := WifiPayload(w);
    assert r[0] == 'W' && !IsSpace(r[0]);
  }

  /** `s.split(';')`: the pieces between semicolons, as a reader of the payload cuts it. */
  function Fields(s: string): (r: seq<string>)
    ensures |r| >= 1
    ensures forall k :: 0 <= k < |r| ==> ';' !in r[k]
  {
    if s == [] then [""]
    else if s[0] == ';' then [""] + Fields(s[1..])
    else
      var rest := Fields(s[1..]);
      [[s[0]] + rest[0]] + rest[1..]
  }

  /** A piece without ';' followed by a ';' is cut off as one field. */
  lemma {:induction false} FieldsAppend(a: string, b: string)
    requires ';' !in a
    ensures Fields(a + ";" + b) == [a] + Fields(b)
  {
    if a != [] {
      assert (a + ";" + b)[1..] == a[1..] + ";" + b;
      FieldsAppend(a[1..], b);
      assert [a[0]] + a[1..] == a;
    } else {
      assert a + ";" + b == ";" + b;
    }
  }

  /** When no field holds a ';', a reader cutting the payload at semicolons gets back the
      encryption, the SSID and the password (and, for `nopass`, no password field). */
  lemma WifiFieldsRoundTrip(w: WifiData)
    requires ';' !in w.encryption && ';' !in w.ssid && ';' !in w.password
    ensures w.encryption != "nopass" ==>
      Fields(WifiPayload(w)) == ["WIFI:T:" + w.encryption, "S:" + w.ssid, "P:" + w.password, "", ""]
    ensures w.encryption == "nopass" ==>
      Fields(WifiPayload(w)) == ["WIFI:T:nopass", "S:" + w.ssid, "", ""]
  {
    var t := "WIFI:T:" + w.encryption;
    var sf := "S:" + w.ssid;
    var pf := "P:" + w.password;
    assert Fields("") == [""];
    FieldsAppend("", "");
    assert "" + ";" + "" == ";";
    if w.encryption != "nopass" {
      FieldsAppend(pf, ";");
      FieldsAppend(sf, pf + ";" + ";");
      FieldsAppend(t, sf + ";" + (pf + ";" + ";"));
      assert WifiPayload(w) == t + ";" + (sf + ";" + (pf + ";" + ";"));
    } else {
      FieldsAppend(sf, ";");
      FieldsAppend("WIFI:T:nopass", sf + ";" + ";");
      assert WifiPayload(w) == "WIFI:T:nopass" + ";" + (sf + ";" + ";");
    }
  }

  /** Because ';' and ':' are not escaped, two different networks can yield the same payload:
      SSID "a;P:b" with password "c", and SSID "a" with password "b;P:c". */
  lemma WifiPayloadAmbiguous()
    ensures WifiData("a;P:b", "c", "WPA") != WifiData("a", "b;P:c", "WPA")
    ensures WifiPayload(WifiData("a;P:b", "c", "WPA")) == WifiPayload(WifiData("a", "b;P:c", "WPA"))
  {
    assert "WIFI:T:" + "WPA" + ";S:" + "a;P:b" + ";P:" + "c" + ";;" == "WIFI:T:WPA;S:a;P:b;P:c;;";
    assert "WIFI:T:" + "WPA" + ";S:" + "a" + ";P:" + "b;P:c" + ";;" == "WIFI:T:WPA;S:a;P:b;P:c;;";
  }

  class QrGenerator {
    var activeTab: Tab
    var inputValue: string
    var wifi: WifiData
    var qrImage: string
    var error: string

    constructor ()
      ensures activeTab == Link && inputValue == InitialInput && wifi == InitialWifi
      ensures qrImage == "" && error == ""
    {
      activeTab := Link;
      inputValue := InitialInput;
      wifi := InitialWifi;
      qrImage := "";
      error := "";
    }

    /** A tab button: the link tab resets the input to "https://", the text tab empties it, the
        WIFI tab keeps it. */
    method SelectTab(tab: Tab)
      modifies this`activeTab, this`inputValue
      ensures activeTab == tab
      ensures tab == Link ==> inputValue == "https://"
      ensures tab == Text ==> inputValue == ""
      ensures tab == Wifi ==> inputValue == old(inputValue)
    {
      activeTab := tab;
      if tab == Link {
        inputValue := "https://";
      } else if tab == Text {
        inputValue := "";
      }
    }

    method SetInput(v: string)
      modifies this`inputValue
      ensures inputValue == v
    {
      inputValue := v;
    }

    method SetWifi(w: WifiData)
      modifies this`wifi
      ensures wifi == w
    {
      wifi := w;
    }

    /** `generateQR`: the error is cleared first; a blank payload stops there; otherwise
        `rendered` is what the library returned for the payload, an image URL or None when it
        threw, which sets the fixed error message. Returns the payload built. */
    method GenerateQR(rendered: Option<string>) returns (textToEncode: string)
      modifies this`qrImage, this`error
      ensures textToEncode == Payload(activeTab, inputValue, wifi)
      ensures Trim(textToEncode) == "" ==> qrImage == old(qrImage) && error == ""
      ensures Trim(textToEncode) != "" && rendered.Some? ==> qrImage == rendered.value && error == ""
      ensures Trim(textToEncode) != "" && rendered.None? ==> qrImage == old(qrImage) && error == GenerateError
    {
      error := "";
      textToEncode := "";
      if activeTab == Link || activeTab == Text {
        textToEncode := inputValue;
      } else {
        textToEncode := "WIFI:T:" + wifi.encryption + ";S:" + wifi.ssid + ";P:" + wifi.password + ";;";
        if wifi.encryption == "nopass" {
          textToEncode := "WIFI:T:nopass;S:" + wifi.ssid + ";;";
        }
      }
      if Trim(textToEncode) == "" {
        return;
      }
      match rendered {
        case Some(url) => qrImage := url;
        case None => error := GenerateError;
      }
    }
  }
}
