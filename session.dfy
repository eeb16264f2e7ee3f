/**
 * The ESP8266 driver: the module-level state (three connection flags, the
 * upload flag and the rolling receive buffer) as the fields of a Session,
 * and its operations as methods that update them step by step.
 *
 * The device's collaborators are modelled as a trace and as scripts: every
 * serial.writeString and every basic.pause is appended to `trace`, in the
 * order they happen, and each wait reads its clock and serial input from an
 * Exchange.
 */
module SuperConnect {
  import opened Wire
  import opened Response

  /** One effect on the device: a string written to the serial line, or a pause. */
  datatype Event = Wrote(text: string) | Paused(ms: int)

  /** The effects of one sendAT: the command line, then its settle pause. */
  function Command(command: string, wait: int): seq<Event> {
    [Wrote(Line(command)), Paused(wait)]
  }

  class Session {
    var wifiConnected: bool
    var thingSpeakConnected: bool
    var iftttConnected: bool
    var lastUploadSuccessful: bool
    /** The rolling receive buffer shared by every wait. */
    var serialStr: string
    /** Every write and every pause so far, in order. */
    var trace: seq<Event>

    /** The rolling buffer never holds more than Cap characters. */
    ghost predicate Valid()
      reads this
    {
      |serialStr| <= Cap
    }

    /** The state at program start: nothing connected, nothing received, nothing done. */
    constructor ()
      ensures Valid()
      ensures !wifiConnected && !thingSpeakConnected && !iftttConnected && !lastUploadSuccessful
      ensures serialStr == "" && trace == []
    {
      wifiConnected, thingSpeakConnected, iftttConnected, lastUploadSuccessful := false, false, false, false;
      serialStr := "";
      trace := [];
    }

    /** basic.pause: block for ms milliseconds. */
    method Pause(ms: int)
      modifies this`trace
      ensures trace == old(trace) + [Paused(ms)]
    {
      trace := trace + [Paused(ms)];
    }

    /** sendAT: write the command followed by CR+LF, then pause (100 ms unless told otherwise). */
    method SendAT(command: string, wait: int := 100)
      modifies this`trace
      ensures trace == old(trace) + [Wrote(command + "\r\n"), Paused(wait)]
    {
      trace := trace + [Wrote(command + CRLF)];
      Pause(wait);
    }

    /**
     * waitResponse: poll the serial input into the rolling buffer until the
     * buffer contains target (true) or a poll's clock reading is more than
     * Timeout ms past the start reading (false).
     */
    method WaitResponse(target: string, ex: Exchange) returns (result: bool)
      requires Expires(ex.start, ex.polls)
      modifies this`serialStr
      ensures Valid()
      ensures result == Await(old(serialStr), target, ex.start, ex.polls).found
      ensures serialStr == Await(old(serialStr), target, ex.start, ex.polls).buffer
    {
      result := false;
      var time := ex.start;
      var i := 0;
      while true
        invariant 0 <= i < |ex.polls|
        invariant Expires(time, ex.polls[i..])
        invariant Await(old(serialStr), target, time, ex.polls).found
                  == Await(serialStr, target, time, ex.polls[i..]).found
        invariant Await(old(serialStr), target, time, ex.polls).buffer
                  == Await(serialStr, target, time, ex.polls[i..]).buffer
        decreases |ex.polls| - i
      {
        var p := ex.polls[i];
        serialStr := serialStr + p.chunk;
        if |serialStr| > Cap {
          serialStr := serialStr[|serialStr| - Cap..];
        }
        if Contains(serialStr, target) {
          result := true;
          break;
        }
        if p.now - time > Timeout {
          break;
        }
        ExpiresRest(time, ex.polls[i..]);
        assert ex.polls[i..][1..] == ex.polls[i + 1..];
        i := i + 1;
      }
    }

    /**
     * connectWifi: clear both connection flags, restore and reset the module,
     * select station mode, join the access point, and record whether "OK"
     * came back. Every step runs whatever the previous one answered.
     */
    method ConnectWifi(ssid: string, pwd: string, join: Exchange)
      requires Expires(join.start, join.polls)
      modifies this`wifiConnected, this`thingSpeakConnected, this`serialStr, this`trace
      ensures Valid()
      ensures trace == old(trace) + Command("AT+RESTORE", 1000) + Command("AT+RST", 1000)
                                  + Command("AT+CWMODE=1", 100) + Command(JoinCommand(ssid, pwd), 100)
      ensures wifiConnected == Await(old(serialStr), "OK", join.start, join.polls).found
      ensures serialStr == Await(old(serialStr), "OK", join.start, join.polls).buffer
      ensures !thingSpeakConnected
      ensures iftttConnected == old(iftttConnected)
      ensures lastUploadSuccessful == old(lastUploadSuccessful)
    {
      ghost var buf, t := serialStr, trace;
      wifiConnected := false;
      thingSpeakConnected := false;
      SendAT("AT+RESTORE", 1000);
      assert trace == t + Command("AT+RESTORE", 1000);
      SendAT("AT+RST", 1000);
      assert trace == t + Command("AT+RESTORE", 1000) + Command("AT+RST", 1000);
      SendAT("AT+CWMODE=1");
      assert trace == t + Command("AT+RESTORE", 1000) + Command("AT+RST", 1000) + Command("AT+CWMODE=1", 100);
      SendAT(JoinCommand(ssid, pwd));
      assert serialStr == buf;
      wifiConnected := WaitResponse("OK", join);
    }

    /**
     * The connect step shared by both services: open a TCP connection to
     * host, wait for "OK", then pause 100 ms.
     */
    method OpenConnection(host: string, connect: Exchange) returns (connected: bool)
      requires Expires(connect.start, connect.polls)
      modifies this`serialStr, this`trace
      ensures Valid()
      ensures trace == old(trace) + Command(StartCommand(host), 0) + [Paused(100)]
      ensures connected == Await(old(serialStr), "OK", connect.start, connect.polls).found
      ensures serialStr == Await(old(serialStr), "OK", connect.start, connect.polls).buffer
    {
      ghost var buf := serialStr;
      SendAT(StartCommand(host), 0);
      assert serialStr == buf;
      connected := WaitResponse("OK", connect);
      Pause(100);
    }

    /**
     * The upload step shared by both services: clear the upload flag,
     * announce the request's byte count, send the request, record whether
     * "OK" came back, then pause 100 ms.
     */
    method SendRequest(request: string, upload: Exchange)
      requires Expires(upload.start, upload.polls)
      modifies this`lastUploadSuccessful, this`serialStr, this`trace
      ensures Valid()
      ensures trace == old(trace) + Command(SendLengthCommand(request), 100) + Command(request, 0) + [Paused(100)]
      ensures lastUploadSuccessful == Await(old(serialStr), "OK", upload.start, upload.polls).found
      ensures serialStr == Await(old(serialStr), "OK", upload.start, upload.polls).buffer
    {
      ghost var buf := serialStr;
      lastUploadSuccessful := false;
      SendAT(SendLengthCommand(request));
      SendAT(request, 0);
      assert serialStr == buf;
      lastUploadSuccessful := WaitResponse("OK", upload);
      Pause(100);
    }

    /**
     * connectThingSpeak: only with Wi-Fi joined and a non-empty key, open a
     * TCP connection to ip; if "OK" came back, announce and send the update
     * request carrying the eight samples and record whether "OK" came back.
     */
    method ConnectThingSpeak(ip: string, writeApiKey: string,
                             n1: int, n2: int, n3: int, n4: int,
                             n5: int, n6: int, n7: int, n8: int,
                             connect: Exchange, upload: Exchange)
      requires Expires(connect.start, connect.polls)
      requires Expires(upload.start, upload.polls)
      requires Valid()
      modifies this`thingSpeakConnected, this`lastUploadSuccessful, this`serialStr, this`trace
      ensures Valid()
      ensures !(old(wifiConnected) && writeApiKey != "") ==>
        && trace == old(trace) && serialStr == old(serialStr)
        && thingSpeakConnected == old(thingSpeakConnected)
        && lastUploadSuccessful == old(lastUploadSuccessful)
      ensures old(wifiConnected) && writeApiKey != "" ==>
        var c := Await(old(serialStr), "OK", connect.start, connect.polls);
        var started := old(trace) + Command(StartCommand(ip), 0) + [Paused(100)];
        var request := UploadRequest(writeApiKey, n1, n2, n3, n4, n5, n6, n7, n8);
        var u := Await(c.buffer, "OK", upload.start, upload.polls);
        && thingSpeakConnected == c.found
        && (!c.found ==>
              trace == started && serialStr == c.buffer && lastUploadSuccessful == old(lastUploadSuccessful))
        && (c.found ==>
              && trace == started + Command(SendLengthCommand(request), 100) + Command(request, 0) + [Paused(100)]
              && serialStr == u.buffer && lastUploadSuccessful == u.found)
    {
      if wifiConnected && writeApiKey != "" {
        thingSpeakConnected := false;
        thingSpeakConnected := OpenConnection(ip, connect);
        if thingSpeakConnected {
          var str := UploadRequest(writeApiKey, n1, n2, n3, n4, n5, n6, n7, n8);
          SendRequest(str, upload);
        }
      }
    }

    /**
     * IFTTTWebhook: only with Wi-Fi joined and non-empty event name and key,
     * open a TCP connection to maker.ifttt.com (ip is not used); if "OK" came
     * back, announce and send the trigger request and record whether "OK"
     * came back. Its connect result goes to iftttConnected alone.
     */
    method IFTTTWebhook(ip: string, eventName: string, key: string, value: string,
                        connect: Exchange, upload: Exchange)
      requires Expires(connect.start, connect.polls)
      requires Expires(upload.start, upload.polls)
      requires Valid()
      modifies this`iftttConnected, this`lastUploadSuccessful, this`serialStr, this`trace
      ensures Valid()
      ensures !(old(wifiConnected) && eventName != "" && key != "") ==>
        && trace == old(trace) && serialStr == old(serialStr)
        && iftttConnected == old(iftttConnected)
        && lastUploadSuccessful == old(lastUploadSuccessful)
      ensures old(wifiConnected) && eventName != "" && key != "" ==>
        var c := Await(old(serialStr), "OK", connect.start, connect.polls);
        var started := old(trace) + Command(StartCommand(IftttHost), 0) + [Paused(100)];
        var request := WebhookRequest(eventName, key, value);
        var u := Await(c.buffer, "OK", upload.start, upload.polls);
        && iftttConnected == c.found
        && (!c.found ==>
              trace == started && serialStr == c.buffer && lastUploadSuccessful == old(lastUploadSuccessful))
        && (c.found ==>
              && trace == started + Command(SendLengthCommand(request), 100) + Command(request, 0) + [Paused(100)]
              && serialStr == u.buffer && lastUploadSuccessful == u.found)
      ensures thingSpeakConnected == old(thingSpeakConnected)
    {
      if wifiConnected && eventName != "" && key != "" {
        iftttConnected := false;
        iftttConnected := OpenConnection(IftttHost, connect);
        if iftttConnected {
          var str := WebhookRequest(eventName, key, value);
          SendRequest(str, upload);
        }
      }
    }

    /** wait: pause for delay ms when delay is positive, otherwise do nothing. */
    method Wait(delay: int)
      modifies this`trace
      ensures trace == if delay > 0 then old(trace) + [Paused(delay)] else old(trace)
    {
      if delay > 0 {
        Pause(delay);
      }
    }

    /** isWifiConnected: the result of the last Wi-Fi join. */
    function IsWifiConnected(): (r: bool)
      reads this`wifiConnected
      ensures r == wifiConnected
    {
      wifiConnected
    }

    /** isThingSpeakConnected: the result of the last ThingSpeak connect (cleared by a Wi-Fi join). */
    function IsThingSpeakConnected(): (r: bool)
      reads this`thingSpeakConnected
      ensures r == thingSpeakConnected
    {
      thingSpeakConnected
    }

    /** isLastUploadSuccessful: the result of the last request sent by either service. */
    function IsLastUploadSuccessful(): (r: bool)
      reads this`lastUploadSuccessful
      ensures r == lastUploadSuccessful
    {
      lastUploadSuccessful
    }
  }
}
