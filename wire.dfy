/**
 * The exact text that the driver puts on the serial line: AT command
 * lines and the HTTP request lines sent through AT+CIPSEND.
 */
module Wire {
  import opened Decimal

  /** Carriage return + line feed, the AT line terminator. */
  const CRLF: string := "\r\n"

  /** The fixed host of the IFTTT webhook service. */
  const IftttHost: string := "maker.ifttt.com"

  /** What sendAT writes for one command: the command, then CR+LF. */
  function Line(command: string): (r: string)
    ensures |r| == |command| + 2
    ensures r[..|command|] == command && r[|command|..] == CRLF
  {
    command + CRLF
  }

  /** Join an access point: AT+CWJAP="<ssid>","<pwd>", each name between its own quotes. */
  function JoinCommand(ssid: string, pwd: string): (r: string)
    ensures |r| == |ssid| + |pwd| + 14
    ensures r[..10] == "AT+CWJAP=\"" && r[10..10 + |ssid|] == ssid
    ensures r[10 + |ssid|..13 + |ssid|] == "\",\""
    ensures r[13 + |ssid|..|r| - 1] == pwd && r[|r| - 1] == '"'
  {
    "AT+CWJAP=\"" + ssid + "\",\"" + pwd + "\""
  }

  /** Open a TCP connection to port 80 of a host: AT+CIPSTART="TCP","<host>",80. */
  function StartCommand(host: string): (r: string)
    ensures |r| == |host| + 23
    ensures r[..19] == "AT+CIPSTART=\"TCP\",\"" && r[19..19 + |host|] == host
    ensures r[19 + |host|..] == "\",80"
  {
    "AT+CIPSTART=\"TCP\",\"" + host + "\",80"
  }

  /**
   * Announce the byte count of the next write: the count after AT+CIPSEND= is
   * a canonical numeral whose value is the payload's length plus the two
   * characters of the CR+LF that sendAT appends, so exactly what Line writes.
   */
  function SendLengthCommand(payload: string): (r: string)
    ensures |r| > 11 && r[..11] == "AT+CIPSEND="
  {
    "AT+CIPSEND=" + IntToString(|payload| + 2)
  }

  /** The count after "AT+CIPSEND=" is a canonical numeral whose value is the length of the line sent. */
  lemma SendLengthIsWritten(payload: string)
    ensures IsNaturalNumeral(SendLengthCommand(payload)[11..])
    ensures DigitsValue(SendLengthCommand(payload)[11..]) == |Line(payload)|
  {
    NatToStringRoundTrip(|payload| + 2);
    assert SendLengthCommand(payload)[11..] == NatToString(|payload| + 2);
  }

  /** Cutting off the first part of a three-part concatenation leaves the other two. */
  lemma DropFront(a: string, b: string, c: string)
    ensures (a + b + c)[|a|..] == b + c
  {
  }

  /** Appending to a string that starts with p gives a string that still starts with p. */
  lemma KeepsFront(p: string, a: string, b: string, c: string)
    requires |p| <= |a| && a[..|p|] == p
    ensures (a + b + c)[..|p|] == p
  {
    assert (a + b + c)[..|p|] == a[..|p|];
  }

  /**
   * The ThingSpeak update request line (no HTTP version, no headers) for a
   * key and the text of eight field values: the fixed prefix, the key, and
   * eight "&field<i>=" labels of 8 characters, each followed by its text.
   */
  function UploadLine(key: string, f1: string, f2: string, f3: string, f4: string,
                      f5: string, f6: string, f7: string, f8: string): (r: string)
    ensures |r| == |key| + 84 + |f1| + |f2| + |f3| + |f4| + |f5| + |f6| + |f7| + |f8|
  {
    "GET /update?api_key=" + key
      + "&field1=" + f1 + "&field2=" + f2 + "&field3=" + f3 + "&field4=" + f4
      + "&field5=" + f5 + "&field6=" + f6 + "&field7=" + f7 + "&field8=" + f8
  }

  /** The request line starts with "GET /update?api_key=" immediately followed by the key. */
  lemma UploadLineStartsWithKey(key: string, f1: string, f2: string, f3: string, f4: string,
                                f5: string, f6: string, f7: string, f8: string)
    ensures UploadLine(key, f1, f2, f3, f4, f5, f6, f7, f8)[..20 + |key|] == "GET /update?api_key=" + key
  {
    var head := "GET /update?api_key=" + key;
    var s1 := head + "&field1=" + f1;
    var s2 := s1 + "&field2=" + f2;
    var s3 := s2 + "&field3=" + f3;
    var s4 := s3 + "&field4=" + f4;
    var s5 := s4 + "&field5=" + f5;
    var s6 := s5 + "&field6=" + f6;
    var s7 := s6 + "&field7=" + f7;
    KeepsFront(head, head, "&field1=", f1);
    KeepsFront(head, s1, "&field2=", f2);
    KeepsFront(head, s2, "&field3=", f3);
    KeepsFront(head, s3, "&field4=", f4);
    KeepsFront(head, s4, "&field5=", f5);
    KeepsFront(head, s5, "&field6=", f6);
    KeepsFront(head, s6, "&field7=", f7);
    KeepsFront(head, s7, "&field8=", f8);
  }

  /** The request line ends with the eighth field: its label and its text. */
  lemma UploadLineEndsWithLastField(key: string, f1: string, f2: string, f3: string, f4: string,
                                    f5: string, f6: string, f7: string, f8: string)
    ensures var r := UploadLine(key, f1, f2, f3, f4, f5, f6, f7, f8);
      r[|r| - |f8| - 8..] == "&field8=" + f8
  {
    var s7 := "GET /update?api_key=" + key
      + "&field1=" + f1 + "&field2=" + f2 + "&field3=" + f3 + "&field4=" + f4
      + "&field5=" + f5 + "&field6=" + f6 + "&field7=" + f7;
    DropFront(s7, "&field8=", f8);
  }

  /**
   * The ThingSpeak update request for a key and eight samples: each sample
   * spliced in as its decimal text, so the request is the key, the samples'
   * text and 84 fixed characters.
   */
  function UploadRequest(key: string, n1: int, n2: int, n3: int, n4: int,
                         n5: int, n6: int, n7: int, n8: int): (r: string)
    ensures |r| == |key| + 84 + |IntToString(n1)| + |IntToString(n2)| + |IntToString(n3)| + |IntToString(n4)|
                             + |IntToString(n5)| + |IntToString(n6)| + |IntToString(n7)| + |IntToString(n8)|
  {
    UploadLine(key, IntToString(n1), IntToString(n2), IntToString(n3), IntToString(n4),
               IntToString(n5), IntToString(n6), IntToString(n7), IntToString(n8))
  }

  /**
   * The IFTTT trigger request: request line and Host header, each ended by
   * CR+LF. It is its three arguments plus 65 fixed characters, the event name
   * comes right after "GET /trigger/", and it always ends with the header
   * naming the IFTTT host, whatever the arguments.
   */
  function WebhookRequest(event: string, key: string, value: string): (r: string)
    ensures |r| == |event| + |key| + |value| + 65
    ensures r[..13] == "GET /trigger/" && r[13..13 + |event|] == event
    ensures r[|r| - 25..] == "\r\nHost: maker.ifttt.com\r\n"
  {
    var head := "GET /trigger/" + event + "/with/key/" + key + "?value1=" + value + " HTTP/1.1";
    var host := CRLF + "Host: " + IftttHost + CRLF;
    assert host == "\r\nHost: maker.ifttt.com\r\n";
    assert (head + host)[..13] == head[..13];
    head + host
  }

  /** So AT+CIPSEND announces the three arguments' lengths plus 67 for a trigger request. */
  lemma WebhookAnnouncedLength(event: string, key: string, value: string)
    ensures SendLengthCommand(WebhookRequest(event, key, value))
            == "AT+CIPSEND=" + IntToString(|event| + |key| + |value| + 67)
  {
  }
}
