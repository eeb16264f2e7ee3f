/**
 * The receive side of waitResponse: the 200-character rolling buffer and the
 * poll-until-match-or-deadline rule, stated as functions over a script of
 * poll results. The method Session.WaitResponse is proved to compute Await.
 */
module Response {

  /** The rolling buffer keeps at most this many characters. */
  const Cap: nat := 200

  /** A wait gives up once the clock is more than this many ms past its start. */
  const Timeout: int := 30000

  /**
   * What one poll of the environment yields: the characters serial.readString
   * returned, and the reading input.runningTime gives after it.
   */
  datatype Poll = Poll(chunk: string, now: int)

  /** The environment seen by one wait: the clock at its start and the polls that follow. */
  datatype Exchange = Exchange(start: int, polls: seq<Poll>)

  /** How a wait resolved: whether it matched, the buffer it left, and how many polls it took. */
  datatype Outcome = Outcome(found: bool, buffer: string, polls: nat)

  /** The last min(n, |s|) characters of s. */
  function Tail(s: string, n: nat): (r: string)
    ensures |r| == if |s| <= n then |s| else n
    ensures r == s[|s| - |r|..]
  {
    if |s| > n then s[|s| - n..] else s
  }

  /**
   * One poll's update of the buffer: append the chunk, keep the last Cap
   * characters (the back end, by Tail's contract). Nothing is dropped while
   * everything fits.
   */
  function Roll(buf: string, chunk: string): (r: string)
    ensures |r| == if |buf| + |chunk| <= Cap then |buf| + |chunk| else Cap
    ensures |buf| + |chunk| <= Cap ==> r == buf + chunk
  {
    Tail(buf + chunk, Cap)
  }

  /** t occurs in s starting at position i. */
  predicate OccursAt(s: string, t: string, i: nat) {
    i <= |s| && t <= s[i..]
  }

  /**
   * Substring search, as JavaScript's String.prototype.includes: the empty
   * string is in every string, and no string is in a shorter one.
   */
  predicate Contains(s: string, t: string)
    ensures t == [] ==> Contains(s, t)
    ensures |t| > |s| ==> !Contains(s, t)
  {
    assert t == [] ==> OccursAt(s, t, 0);
    exists i: nat :: i <= |s| && OccursAt(s, t, i)
  }

  /**
   * The poll ran past the deadline of a wait that started at start: strictly
   * more than Timeout ms, so a reading exactly Timeout ms after the start
   * does not end the wait and the next millisecond does.
   */
  predicate Expired(start: int, p: Poll)
    ensures p.now <= start + Timeout ==> !Expired(start, p)
    ensures p.now >= start + Timeout + 1 ==> Expired(start, p)
  {
    p.now - start > Timeout
  }

  /** Some poll of the script reads the clock past the deadline: the wait cannot outlast the script. */
  predicate Expires(start: int, polls: seq<Poll>) {
    exists i :: 0 <= i < |polls| && Expired(start, polls[i])
  }

  /** All chunks of a script, concatenated in order. */
  function Chunks(polls: seq<Poll>): string
    decreases |polls|
  {
    if polls == [] then "" else polls[0].chunk + Chunks(polls[1..])
  }

  /** The buffer after feeding it every chunk of a script, one poll at a time. */
  function RollAll(buf: string, polls: seq<Poll>): string
    decreases |polls|
  {
    if polls == [] then buf else RollAll(Roll(buf, polls[0].chunk), polls[1..])
  }

  /**
   * waitResponse: each poll rolls the chunk into the buffer, then a match wins,
   * then the deadline is checked; otherwise the next poll follows.
   */
  function Await(buf: string, target: string, start: int, polls: seq<Poll>): (o: Outcome)
    requires Expires(start, polls)
    ensures 1 <= o.polls <= |polls|
    ensures |o.buffer| <= Cap
    decreases |polls|
  {
    var b := Roll(buf, polls[0].chunk);
    if Contains(b, target) then Outcome(true, b, 1)
    else if Expired(start, polls[0]) then Outcome(false, b, 1)
    else
      var o := Await(b, target, start, polls[1..]);
      Outcome(o.found, o.buffer, o.polls + 1)
  }

  // ---------------------------------------------------------------------
  // The rolling buffer.
  // ---------------------------------------------------------------------

  /** Rolling a chunk of at most Cap characters keeps all of it at the back of the buffer. */
  lemma RollKeepsBack(buf: string, chunk: string)
    requires |chunk| <= Cap
    ensures |Roll(buf, chunk)| >= |chunk|
    ensures Roll(buf, chunk)[|Roll(buf, chunk)| - |chunk|..] == chunk
  {
  }

  /** Cutting a prefix off s changes nothing in its last n characters, as long as n of them remain. */
  lemma TailOfSuffix(s: string, j: nat, n: nat)
    requires j + n <= |s|
    ensures Tail(s[j..], n) == Tail(s, n)
  {
  }

  /** Truncating before appending more loses nothing that the final truncation would keep. */
  lemma TailOfTail(s: string, c: string, n: nat)
    ensures Tail(Tail(s, n) + c, n) == Tail(s + c, n)
  {
    if |s| > n {
      var j := |s| - n;
      assert Tail(s, n) + c == (s + c)[j..];
      TailOfSuffix(s + c, j, n);
    }
  }

  /**
   * After any sequence of polls the buffer is the last min(Cap, n) characters
   * of everything received, where n is the buffer's length before plus all
   * chunks: a bounded suffix of the whole input, never reordered.
   */
  lemma {:induction false} RollAllIsTail(buf: string, polls: seq<Poll>)
    requires polls != [] || |buf| <= Cap
    ensures RollAll(buf, polls) == Tail(buf + Chunks(polls), Cap)
    ensures |RollAll(buf, polls)| <= Cap
    decreases |polls|
  {
    if polls != [] {
      var b := Roll(buf, polls[0].chunk);
      RollAllIsTail(b, polls[1..]);
      TailOfTail(buf + polls[0].chunk, Chunks(polls[1..]), Cap);
      assert buf + polls[0].chunk + Chunks(polls[1..]) == buf + Chunks(polls);
    }
  }

  // ---------------------------------------------------------------------
  // The wait rule.
  // ---------------------------------------------------------------------

  /** After the k-th poll (1-based) the buffer does not contain the target. */
  predicate MissesAt(buf: string, target: string, polls: seq<Poll>, k: nat)
    requires 1 <= k <= |polls|
  {
    !Contains(RollAll(buf, polls[..k]), target)
  }

  /** The k-th poll neither matches nor passes the deadline, so the wait goes on. */
  predicate QuietAt(buf: string, target: string, start: int, polls: seq<Poll>, k: nat)
    requires 1 <= k <= |polls|
  {
    MissesAt(buf, target, polls, k) && !Expired(start, polls[k - 1])
  }

  /** The buffer after k + 1 polls is the buffer after k polls of the rest, started from the first roll. */
  lemma RollAllPrefix(buf: string, polls: seq<Poll>, k: nat)
    requires 1 <= k <= |polls|
    ensures RollAll(buf, polls[..k]) == RollAll(Roll(buf, polls[0].chunk), polls[1..][..k - 1])
  {
    assert polls[..k][1..] == polls[1..][..k - 1];
  }

  /** Whether the k + 1-th poll is quiet is whether the k-th poll of the rest is. */
  lemma QuietShift(buf: string, target: string, start: int, polls: seq<Poll>, k: nat)
    requires 1 <= k < |polls|
    ensures RollAll(buf, polls[..k + 1]) == RollAll(Roll(buf, polls[0].chunk), polls[1..][..k])
    ensures QuietAt(buf, target, start, polls, k + 1)
            == QuietAt(Roll(buf, polls[0].chunk), target, start, polls[1..], k)
  {
    var b, rest := Roll(buf, polls[0].chunk), polls[1..];
    RollAllPrefix(buf, polls, k + 1);
    assert RollAll(buf, polls[..k + 1]) == RollAll(b, rest[..k]);
    assert rest[k - 1] == polls[k];
  }

  /** A script that expires, and whose first poll does not, still expires after that poll. */
  lemma ExpiresRest(start: int, polls: seq<Poll>)
    requires Expires(start, polls) && !Expired(start, polls[0])
    ensures Expires(start, polls[1..])
  {
  }

  /**
   * Await stops at the first poll whose rolled buffer contains the target (a
   * match on the poll that also passes the deadline still counts), or else at
   * the first poll that passes the deadline; it reports a match exactly when
   * its final buffer contains the target, and that buffer is the one after
   * exactly the polls it used.
   */
  lemma {:induction false} AwaitStopsAtFirstEvent(buf: string, target: string, start: int, polls: seq<Poll>)
    requires Expires(start, polls)
    ensures var o := Await(buf, target, start, polls);
      && o.buffer == RollAll(buf, polls[..o.polls])
      && o.found == Contains(o.buffer, target)
      && (!o.found ==> Expired(start, polls[o.polls - 1]))
      && forall k :: 1 <= k < o.polls ==> QuietAt(buf, target, start, polls, k)
    decreases |polls|
  {
    var o := Await(buf, target, start, polls);
    var b := Roll(buf, polls[0].chunk);
    RollAllPrefix(buf, polls, 1);
    if !Contains(b, target) && !Expired(start, polls[0]) {
      var rest := polls[1..];
      ExpiresRest(start, polls);
      AwaitStopsAtFirstEvent(b, target, start, rest);
      var o' := Await(b, target, start, rest);
      RollAllPrefix(buf, polls, o.polls);
      forall k | 1 <= k < o.polls
        ensures QuietAt(buf, target, start, polls, k)
      {
        if k > 1 {
          QuietShift(buf, target, start, polls, k - 1);
        }
      }
      assert polls[o.polls - 1] == rest[o'.polls - 1];
    }
  }

  /**
   * The converse: if the n-th poll is the first to match or to pass the
   * deadline, Await uses exactly n polls and reports whether that poll matched.
   */
  lemma {:induction false} AwaitOutcomeAt(buf: string, target: string, start: int, polls: seq<Poll>, n: nat)
    requires Expires(start, polls)
    requires 1 <= n <= |polls|
    requires !QuietAt(buf, target, start, polls, n)
    requires forall k :: 1 <= k < n ==> QuietAt(buf, target, start, polls, k)
    ensures Await(buf, target, start, polls)
            == Outcome(!MissesAt(buf, target, polls, n), RollAll(buf, polls[..n]), n)
    decreases |polls|
  {
    var b := Roll(buf, polls[0].chunk);
    RollAllPrefix(buf, polls, 1);
    if n > 1 {
      assert QuietAt(buf, target, start, polls, 1);
      var rest := polls[1..];
      forall k | 1 <= k < n - 1
        ensures QuietAt(b, target, start, rest, k)
      {
        QuietShift(buf, target, start, polls, k);
      }
      QuietShift(buf, target, start, polls, n - 1);
      ExpiresRest(start, polls);
      AwaitOutcomeAt(b, target, start, rest, n - 1);
    }
  }

  /**
   * waitResponse returns true exactly when the buffer after one of the polls
   * it made contains the target; when it returns false, its last poll read
   * the clock past the deadline.
   */
  lemma AwaitFoundIffSomePollMatches(buf: string, target: string, start: int, polls: seq<Poll>)
    requires Expires(start, polls)
    ensures var o := Await(buf, target, start, polls);
      (o.found <==> exists k :: 1 <= k <= o.polls && Contains(RollAll(buf, polls[..k]), target))
      && (!o.found ==> Expired(start, polls[o.polls - 1]))
  {
    AwaitStopsAtFirstEvent(buf, target, start, polls);
    var o := Await(buf, target, start, polls);
    if !o.found {
      forall k | 1 <= k <= o.polls
        ensures !Contains(RollAll(buf, polls[..k]), target)
      {
        if k < o.polls {
          assert QuietAt(buf, target, start, polls, k);
        }
      }
    }
  }

  /**
   * After a wait the buffer holds the last min(Cap, n) characters of the old
   * buffer followed by every chunk the wait read.
   */
  lemma AwaitBufferIsTail(buf: string, target: string, start: int, polls: seq<Poll>)
    requires Expires(start, polls)
    ensures var o := Await(buf, target, start, polls);
      o.buffer == Tail(buf + Chunks(polls[..o.polls]), Cap)
  {
    AwaitStopsAtFirstEvent(buf, target, start, polls);
    var o := Await(buf, target, start, polls);
    RollAllIsTail(buf, polls[..o.polls]);
  }

  /**
   * Stale match: a target left in the buffer by an earlier exchange is
   * matched on the first poll even though nothing new arrived, and the
   * buffer stays as it was.
   */
  lemma StaleMatch(buf: string, target: string, start: int, polls: seq<Poll>)
    requires |buf| <= Cap && Contains(buf, target)
    requires |polls| > 0 && polls[0].chunk == ""
    requires Expires(start, polls)
    ensures Await(buf, target, start, polls) == Outcome(true, buf, 1)
  {
    assert buf + "" == buf;
  }

  /** A chunk that contains the target and fits in the buffer is matched on the poll that delivers it. */
  lemma ArrivingTargetIsMatched(buf: string, target: string, start: int, polls: seq<Poll>)
    requires |polls| > 0 && |polls[0].chunk| <= Cap && Contains(polls[0].chunk, target)
    requires Expires(start, polls)
    ensures Await(buf, target, start, polls) == Outcome(true, Roll(buf, polls[0].chunk), 1)
  {
    var c := polls[0].chunk;
    var r := Roll(buf, c);
    RollKeepsBack(buf, c);
    var i: nat :| i <= |c| && OccursAt(c, target, i);
    var off := |r| - |c|;
    assert r[off..] == c;
    assert r[off + i..] == c[i..];
    assert OccursAt(r, target, off + i);
  }
}
