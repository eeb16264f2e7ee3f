/**
 * Client runs of the driver on scripted modules, proved from the method
 * contracts alone: a module that answers "OK", one that stays silent, and
 * the stale match left behind by an earlier answer.
 */
module Scenarios {
  import opened Wire
  import opened Response
  import opened SuperConnect

  /** A module that answers "OK" 50 ms into the wait. */
  function Answering(): Exchange {
    Exchange(0, [Poll("OK", 50), Poll("", 30001)])
  }

  /** A module that never says anything. */
  function Silent(): Exchange {
    Exchange(0, [Poll("", 10), Poll("", 30001)])
  }

  /** Both scripts reach the deadline, so a wait on either one ends. */
  lemma ScriptsExpire()
    ensures Expires(Answering().start, Answering().polls)
    ensures Expires(Silent().start, Silent().polls)
  {
    assert Expired(Answering().start, Answering().polls[1]);
    assert Expired(Silent().start, Silent().polls[1]);
  }

  /** The request line through field 3, spelled out. */
  lemma RequestHead()
    ensures "GET /update?api_key=" + "K1" + "&field1=" + "1" + "&field2=" + "2" + "&field3=" + "3"
            == "GET /update?api_key=K1&field1=1&field2=2&field3=3"
  {
  }

  /** Fields 4 to 6 appended. */
  lemma RequestMiddle()
    ensures "GET /update?api_key=K1&field1=1&field2=2&field3=3" + "&field4=" + "4" + "&field5=" + "5" + "&field6=" + "6"
            == "GET /update?api_key=K1&field1=1&field2=2&field3=3&field4=4&field5=5&field6=6"
  {
  }

  /** Fields 7 and 8 appended. */
  lemma RequestEnd()
    ensures "GET /update?api_key=K1&field1=1&field2=2&field3=3&field4=4&field5=5&field6=6" + "&field7=" + "7" + "&field8=" + "8"
            == "GET /update?api_key=K1&field1=1&field2=2&field3=3&field4=4&field5=5&field6=6&field7=7&field8=8"
  {
  }

  /** The ThingSpeak request line for key K1 and samples 1..8. */
  lemma SampleRequest()
    ensures UploadRequest("K1", 1, 2, 3, 4, 5, 6, 7, 8)
            == "GET /update?api_key=K1&field1=1&field2=2&field3=3&field4=4&field5=5&field6=6&field7=7&field8=8"
  {
    assert Decimal.IntToString(1) == "1" && Decimal.IntToString(2) == "2";
    assert Decimal.IntToString(3) == "3" && Decimal.IntToString(4) == "4";
    assert Decimal.IntToString(5) == "5" && Decimal.IntToString(6) == "6";
    assert Decimal.IntToString(7) == "7" && Decimal.IntToString(8) == "8";
    RequestHead();
    RequestMiddle();
    RequestEnd();
  }

  /** The request line for K1 and 1..8 has 94 characters, so AT+CIPSEND announces 96. */
  lemma SampleUpload()
    ensures SendLengthCommand(UploadRequest("K1", 1, 2, 3, 4, 5, 6, 7, 8)) == "AT+CIPSEND=96"
  {
    var r := UploadRequest("K1", 1, 2, 3, 4, 5, 6, 7, 8);
    assert |r| == 94;
    assert Decimal.NatToString(96) == Decimal.NatToString(9) + [Decimal.DigitChar(6)];
  }

  /** The two lines sendAT writes for that upload, CR+LF included. */
  lemma SampleLines()
    ensures Line(SendLengthCommand(UploadRequest("K1", 1, 2, 3, 4, 5, 6, 7, 8))) == "AT+CIPSEND=96\r\n"
    ensures Line(UploadRequest("K1", 1, 2, 3, 4, 5, 6, 7, 8))
            == "GET /update?api_key=K1&field1=1&field2=2&field3=3&field4=4&field5=5&field6=6&field7=7&field8=8\r\n"
  {
    SampleRequest();
    SampleUpload();
    assert "AT+CIPSEND=96" + CRLF == "AT+CIPSEND=96\r\n";
    assert "GET /update?api_key=K1&field1=1&field2=2&field3=3&field4=4&field5=5&field6=6&field7=7&field8=8" + CRLF
           == "GET /update?api_key=K1&field1=1&field2=2&field3=3&field4=4&field5=5&field6=6&field7=7&field8=8\r\n";
  }

  /** A wait on an answering module from any buffer reports "OK" after one poll. */
  lemma AnsweringMatches(buf: string)
    ensures Expires(Answering().start, Answering().polls)
    ensures Await(buf, "OK", Answering().start, Answering().polls).found
    ensures Await(buf, "OK", Answering().start, Answering().polls).buffer == Roll(buf, "OK")
  {
    var ex := Answering();
    ScriptsExpire();
    assert OccursAt("OK", "OK", 0);
    ArrivingTargetIsMatched(buf, "OK", ex.start, ex.polls);
  }

  /**
   * Joining "net" with password "pw" on an answering module succeeds; the
   * fourth write, after three writes and three pauses, is the join command.
   */
  method JoinAnswered() returns (joined: bool, fourth: Event)
    ensures joined
    ensures fourth == Wrote("AT+CWJAP=\"net\",\"pw\"\r\n")
  {
    var s := new Session();
    AnsweringMatches(s.serialStr);
    s.ConnectWifi("net", "pw", Answering());
    joined := s.IsWifiConnected();
    fourth := s.trace[6];
  }

  /** Joining a silent module fails once the clock passes the deadline. */
  method JoinSilent() returns (joined: bool)
    ensures !joined
  {
    var s := new Session();
    var ex := Silent();
    ScriptsExpire();
    assert !Contains("", "OK") by {
      forall i: nat | i <= 0 ensures !OccursAt("", "OK", i) { }
    }
    s.ConnectWifi("net", "pw", ex);
    joined := s.IsWifiConnected();
  }

  /** A fresh session after joining an answering module: Wi-Fi is up and the trace holds the join's eight events. */
  method Joined() returns (s: Session)
    ensures fresh(s) && s.Valid()
    ensures s.wifiConnected && |s.trace| == 8
  {
    s := new Session();
    AnsweringMatches(s.serialStr);
    s.ConnectWifi("net", "pw", Answering());
  }

  /**
   * Uploading 1..8 with key K1 after a successful join: the upload reports
   * success, and the writes after the join's eight events are the CIPSEND
   * announcement and the request line, whose text SampleLines spells out.
   */
  method UploadAnswered() returns (announce: Event, request: Event, uploaded: bool)
    ensures announce == Wrote(Line(SendLengthCommand(UploadRequest("K1", 1, 2, 3, 4, 5, 6, 7, 8))))
    ensures request == Wrote(Line(UploadRequest("K1", 1, 2, 3, 4, 5, 6, 7, 8)))
    ensures uploaded
  {
    var s := Joined();
    ghost var joined := s.trace;
    var req := UploadRequest("K1", 1, 2, 3, 4, 5, 6, 7, 8);
    AnsweringMatches(s.serialStr);
    AnsweringMatches(Roll(s.serialStr, "OK"));
    s.ConnectThingSpeak("api.thingspeak.com", "K1", 1, 2, 3, 4, 5, 6, 7, 8, Answering(), Answering());
    ghost var started := joined + Command(StartCommand("api.thingspeak.com"), 0) + [Paused(100)];
    assert s.trace == started + Command(SendLengthCommand(req), 100) + Command(req, 0) + [Paused(100)];
    assert |started| == 11;
    announce := s.trace[11];
    request := s.trace[13];
    uploaded := s.IsLastUploadSuccessful();
  }

  /**
   * Stale rejoin: after a successful join, joining another network on a
   * module that sends nothing still reports Wi-Fi up, because the first
   * join's "OK" is still in the buffer.
   */
  method RejoinSilent() returns (joined: bool)
    ensures joined
  {
    var s := new Session();
    AnsweringMatches(s.serialStr);
    s.ConnectWifi("net", "pw", Answering());
    var ex := Silent();
    ScriptsExpire();
    assert OccursAt("OK", "OK", 0);
    assert Contains(s.serialStr, "OK");
    StaleMatch(s.serialStr, "OK", ex.start, ex.polls);
    s.ConnectWifi("other", "pw2", ex);
    joined := s.IsWifiConnected();
  }

  /**
   * Stale match: after the join's "OK", a ThingSpeak connect and upload to a
   * module that sends nothing at all both report success.
   */
  method StaleUpload() returns (connected: bool, uploaded: bool)
    ensures connected && uploaded
  {
    var s := new Session();
    AnsweringMatches(s.serialStr);
    s.ConnectWifi("net", "pw", Answering());
    var ex := Silent();
    ScriptsExpire();
    assert OccursAt("OK", "OK", 0);
    assert Contains(s.serialStr, "OK");
    StaleMatch(s.serialStr, "OK", ex.start, ex.polls);
    s.ConnectThingSpeak("api.thingspeak.com", "K1", 1, 2, 3, 4, 5, 6, 7, 8, ex, ex);
    connected := s.IsThingSpeakConnected();
    uploaded := s.IsLastUploadSuccessful();
  }

  /** A webhook before any join sends nothing and leaves every flag alone. */
  method WebhookWithoutWifi() returns (events: nat, connected: bool)
    ensures events == 0 && !connected
  {
    var s := new Session();
    ScriptsExpire();
    s.IFTTTWebhook("ignored", "event", "key", "v", Silent(), Silent());
    events := |s.trace|;
    connected := s.iftttConnected || s.lastUploadSuccessful;
  }
}
