/**
 * The websocket demo handler of websocket/main.go: after the upgrade it
 * reads frames one at a time; a binary frame is refused, a payload that is
 * not the magic word "start" (ignoring leading and trailing newlines) gets
 * a hint, and the magic word starts an endless stream of notifications. A
 * read error or a write error ends the session, and the connection is then
 * closed.
 *
 * The peer is a script of reads; running out of script counts as a read
 * error. The transport's writes are described by `budget`, the number of
 * writes that succeed before the first failing one: since any write error
 * ends the session, no other write outcome is ever observed.
 */
module Notifier {

  datatype FrameKind = TextMessage | BinaryMessage

  /** The outcome of one ReadMessage call. */
  datatype Read = Frame(kind: FrameKind, data: string) | ReadFailed

  /** Why a session ended. */
  datatype End = UpgradeFailed | ReadError | WriteError

  /**
   * A text frame the handler writes: the refusal of a binary frame, the hint
   * that the magic word was not sent, or a notification with the value of
   * the counter `i`.
   */
  datatype Reply = BinaryRefusal | MagicHint | Notification(counter: nat)

  /**
   * What a session did: every write it attempted, in order (the last one
   * failed when the session ended on a write error), why it ended, and
   * whether the deferred close ran.
   */
  datatype Session = Session(writes: seq<Reply>, end: End, closed: bool)

  const MagicWord := "start"

  // ---------------------------------------------------------------------------
  // strings.Trim(message, "\n") and the magic-word test
  // ---------------------------------------------------------------------------

  /** `s` without its leading newlines. */
  function TrimLeft(s: string): string
  {
    if s != [] && s[0] == '\n' then TrimLeft(s[1..]) else s
  }

  /** `s` without its trailing newlines. */
  function TrimRight(s: string): string
  {
    if s != [] && s[|s| - 1] == '\n' then TrimRight(s[..|s| - 1]) else s
  }

  /**
   * TrimLeft removes a prefix made only of newlines, and all of it: what
   * remains is a suffix of the input that does not start with a newline.
   */
  lemma {:induction false} TrimLeftRemovesLeadingNewlines(s: string)
    ensures var r := TrimLeft(s);
      |r| <= |s| && r == s[|s| - |r|..] &&
      (forall i :: 0 <= i < |s| - |r| ==> s[i] == '\n') &&
      (r == [] || r[0] != '\n')
    decreases |s|
  {
    if s != [] && s[0] == '\n' {
      TrimLeftRemovesLeadingNewlines(s[1..]);
    }
  }

  /**
   * TrimRight removes a suffix made only of newlines, and all of it: what
   * remains is a prefix of the input that does not end with a newline.
   */
  lemma {:induction false} TrimRightRemovesTrailingNewlines(s: string)
    ensures var r := TrimRight(s);
      |r| <= |s| && r == s[..|r|] &&
      (forall i :: |r| <= i < |s| ==> s[i] == '\n') &&
      (r == [] || r[|r| - 1] != '\n')
    decreases |s|
  {
    if s != [] && s[|s| - 1] == '\n' {
      TrimRightRemovesTrailingNewlines(s[..|s| - 1]);
    }
  }

  /** strings.Trim with the cutset "\n": leading newlines first, then trailing ones. */
  function Trim(s: string): string
  {
    TrimRight(TrimLeft(s))
  }

  /** The test of main.go:46. */
  predicate IsMagic(message: string)
  {
    Trim(message) == MagicWord
  }

  /** n newline characters. */
  function Newlines(n: nat): string
  {
    seq(n, _ => '\n')
  }

  lemma {:induction false} TrimLeftPadded(a: nat, x: string)
    requires x == [] || x[0] != '\n'
    ensures TrimLeft(Newlines(a) + x) == x
    decreases a
  {
    if a > 0 {
      assert (Newlines(a) + x)[1..] == Newlines(a - 1) + x;
      TrimLeftPadded(a - 1, x);
    } else {
      assert Newlines(a) + x == x;
    }
  }

  lemma {:induction false} TrimRightPadded(x: string, b: nat)
    requires x == [] || x[|x| - 1] != '\n'
    ensures TrimRight(x + Newlines(b)) == x
    decreases b
  {
    if b > 0 {
      assert (x + Newlines(b))[..|x| + b - 1] == x + Newlines(b - 1);
      TrimRightPadded(x, b - 1);
    } else {
      assert x + Newlines(b) == x;
    }
  }

  /**
   * The magic-word test strips newlines and nothing else: a payload passes
   * exactly when it is "start" with any number of newlines before and after.
   */
  lemma MagicWordExactly(message: string)
    ensures IsMagic(message) <==> exists a, b :: message == Newlines(a) + MagicWord + Newlines(b)
  {
    if IsMagic(message) {
      TrimLeftRemovesLeadingNewlines(message);
      TrimRightRemovesTrailingNewlines(TrimLeft(message));
      var t := TrimLeft(message);
      var cut := |message| - |t|;
      var u := TrimRight(t);
      assert u == MagicWord;
      assert message[..cut] == Newlines(cut);
      assert t[|u|..] == Newlines(|t| - |u|);
      assert message == message[..cut] + t;
      assert t == u + t[|u|..];
      assert message == Newlines(cut) + MagicWord + Newlines(|t| - |u|);
    }
    if exists a, b :: message == Newlines(a) + MagicWord + Newlines(b) {
      var a, b :| message == Newlines(a) + MagicWord + Newlines(b);
      assert message == Newlines(a) + (MagicWord + Newlines(b));
      TrimLeftPadded(a, MagicWord + Newlines(b));
      TrimRightPadded(MagicWord, b);
    }
  }

  /** Examples: only newlines are stripped. */
  lemma MagicWordExamples()
    ensures IsMagic("start") && IsMagic("\n\nstart\n")
    ensures !IsMagic("start\r\n") && !IsMagic(" start") && !IsMagic("Start") && !IsMagic("")
  {
    assert "\n\nstart\n" == Newlines(2) + MagicWord + Newlines(1);
    MagicWordExactly("\n\nstart\n");
    assert "start" == Newlines(0) + MagicWord + Newlines(0);
    MagicWordExactly("start");
    assert TrimRight("start\r") == "start\r";
    assert TrimRight("start\r\n") == "start\r";
  }

  // ---------------------------------------------------------------------------
  // The notification text
  // ---------------------------------------------------------------------------

  function Digit(d: nat): char
    requires d < 10
  {
    "0123456789"[d]
  }

  /** fmt's %d for a natural number. */
  function Decimal(n: nat): string
    decreases n
  {
    if n < 10 then [Digit(n)] else Decimal(n / 10) + [Digit(n % 10)]
  }

  /** The bytes each reply puts on the wire; a notification is fmt.Sprintf("Notification %d", i). */
  function Text(r: Reply): string
  {
    match r
    case BinaryRefusal => "Server doesn't allow binary message"
    case MagicHint => "You didn't send the magic word"
    case Notification(i) => "Notification " + Decimal(i)
  }

  /** With the counter never incremented from 1, each notification reads "Notification 1". */
  lemma FirstNotificationText()
    ensures Text(Notification(1)) == "Notification 1"
  {
    assert Decimal(1) == "1";
  }

  /** The notification stream of n writes: the counter stays at 1 throughout. */
  function Notifications(n: nat): (r: seq<Reply>)
    ensures |r| == n
    ensures forall j :: 0 <= j < n ==> r[j] == Notification(1)
  {
    if n == 0 then [] else [Notification(1)] + Notifications(n - 1)
  }

  // ---------------------------------------------------------------------------
  // The frame loop
  // ---------------------------------------------------------------------------

  /**
   * What the body of the read loop does with one frame: a write failed
   * (`Stopped`), which ends the session, or the loop goes on to the next
   * read with `left` successful writes still to come (`Continued`).
   */
  datatype Step = Stopped(writes: seq<Reply>) | Continued(writes: seq<Reply>, left: nat)

  /**
   * The body of the read loop (main.go:38-64) for a frame of kind `kind`
   * carrying `data`, when `budget` more writes will succeed: the refusal if
   * the frame is binary, then the magic-word test, then either the hint and
   * the next read or the notification stream, which only a failed write ends.
   * A step that stops has made one write more than its budget, the last one
   * failing; a step that goes on has made at least one write and spent it.
   */
  function Answer(kind: FrameKind, data: string, budget: nat): (r: Step)
    ensures r.Stopped? ==> |r.writes| == budget + 1
    ensures r.Continued? ==> 0 < |r.writes| && |r.writes| + r.left == budget
  {
    if kind == BinaryMessage && budget == 0 then Stopped([BinaryRefusal])
    else
      var pre := if kind == BinaryMessage then [BinaryRefusal] else [];
      var left := budget - |pre|;
      if !IsMagic(data) then
        if left == 0 then Stopped(pre + [MagicHint]) else Continued(pre + [MagicHint], left - 1)
      else Stopped(pre + Notifications(left + 1))
  }

  /** `s` with the writes `w` made before it. */
  function Prepend(w: seq<Reply>, s: Session): Session
  {
    Session(w + s.writes, s.end, s.closed)
  }

  /**
   * What the read loop of main.go:31-65 does from the next read on, when
   * `budget` more writes will succeed. A session attempts at most one write
   * more than its budget, ends on a write error exactly when it spends all of
   * it, never ends for any reason but a read or a write error, and always
   * runs the deferred close.
   */
  function Run(frames: seq<Read>, budget: nat): (r: Session)
    ensures |r.writes| <= budget + 1
    ensures r.end == WriteError <==> |r.writes| == budget + 1
    ensures r.end != UpgradeFailed && r.closed
    decreases |frames|
  {
    if frames == [] || frames[0].ReadFailed? then Session([], ReadError, true)
    else
      match Answer(frames[0].kind, frames[0].data, budget)
      case Stopped(w) => Session(w, WriteError, true)
      case Continued(w, left) => Prepend(w, Run(frames[1..], left))
  }

  /** websocketHandler.ServeHTTP: the whole session, from the upgrade on. */
  function ServeSpec(upgradeOk: bool, frames: seq<Read>, budget: nat): Session
  {
    if upgradeOk then Run(frames, budget) else Session([], UpgradeFailed, false)
  }

  /**
   * The notification loop of main.go:56-64 after `writes`: the counter `i`
   * starts at 1 and is never incremented, and only a failed write ends the
   * loop, so it writes Notification(1) until the budget is spent and then
   * once more, that last write failing.
   */
  method Stream(writes: seq<Reply>, budget: nat) returns (out: seq<Reply>)
    requires |writes| <= budget
    ensures out == writes + Notifications(budget + 1 - |writes|)
  {
    out := writes;
    var i := 1;
    while true
      invariant |out| <= budget
      invariant writes + Notifications(budget + 1 - |writes|) == out + Notifications(budget + 1 - |out|)
      decreases budget - |out|
    {
      ghost var m := budget + 1 - |out|;
      assert out + Notifications(m) == (out + [Notification(1)]) + Notifications(m - 1);
      out := out + [Notification(i)];
      if |out| > budget {
        return;
      }
    }
  }

  /**
   * One pass of the read loop's body (main.go:38-64) for a frame that was
   * read, when `budget` more writes will succeed: it makes the writes
   * Answer gives, and `ended` says that one of them failed.
   */
  method Respond(kind: FrameKind, data: string, budget: nat) returns (out: seq<Reply>, ended: bool)
    ensures out == Answer(kind, data, budget).writes
    ensures ended <==> Answer(kind, data, budget).Stopped?
  {
    out := [];
    if kind == BinaryMessage {
      out := out + [BinaryRefusal];
      if |out| > budget {
        return out, true;
      }
    }
    if !IsMagic(data) {
      out := out + [MagicHint];
      return out, |out| > budget;
    }
    out := Stream(out, budget);
    return out, true;
  }

  /**
   * One turn of the read loop on the frame `frames[n]`, after `writes`:
   * the session from here on is the writes of this turn followed, unless
   * one of them failed, by the session from the next read on.
   */
  method Advance(frames: seq<Read>, n: nat, writes: seq<Reply>, budget: nat) returns (next: seq<Reply>, ended: bool)
    requires n < |frames| && frames[n].Frame? && |writes| <= budget
    ensures ended ==> Prepend(writes, Run(frames[n..], budget - |writes|)) == Session(next, WriteError, true)
    ensures !ended ==> (|next| <= budget &&
      Prepend(writes, Run(frames[n..], budget - |writes|)) == Prepend(next, Run(frames[n + 1..], budget - |next|)))
  {
    var out;
    out, ended := Respond(frames[n].kind, frames[n].data, budget - |writes|);
    RunFromFrame(frames, n, writes, budget - |writes|);
    next := writes + out;
  }

  /**
   * websocketHandler.ServeHTTP (main.go:18-66) on a connection whose reads
   * follow `frames` and whose first `budget` writes succeed. A failed
   * upgrade returns before the deferred close is set up; every later way out
   * runs it.
   */
  method Serve(upgradeOk: bool, frames: seq<Read>, budget: nat) returns (s: Session)
    ensures s == ServeSpec(upgradeOk, frames, budget)
    ensures s.closed <==> upgradeOk
  {
    if !upgradeOk {
      return Session([], UpgradeFailed, false);
    }
    var writes: seq<Reply> := [];
    var n := 0;
    var end: End;
    while true
      invariant 0 <= n <= |frames|
      invariant |writes| <= budget
      invariant Run(frames, budget) == Prepend(writes, Run(frames[n..], budget - |writes|))
      decreases |frames| - n
    {
      if n == |frames| || frames[n].ReadFailed? {
        end := ReadError;
        break;
      }
      var ended;
      writes, ended := Advance(frames, n, writes, budget);
      n := n + 1;
      if ended {
        end := WriteError;
        break;
      }
    }
    s := Session(writes, end, true);
  }

  /** One pass of the read loop, seen from the session as a whole. */
  lemma RunFromFrame(frames: seq<Read>, n: nat, writes: seq<Reply>, budget: nat)
    requires n < |frames| && frames[n].Frame?
    ensures var st := Answer(frames[n].kind, frames[n].data, budget);
      Prepend(writes, Run(frames[n..], budget)) ==
        if st.Stopped? then Session(writes + st.writes, WriteError, true)
        else Prepend(writes + st.writes, Run(frames[n + 1..], st.left))
  {
    assert frames[n..][0] == frames[n] && frames[n..][1..] == frames[n + 1..];
    match Answer(frames[n].kind, frames[n].data, budget)
    case Stopped(w) =>
    case Continued(w, left) =>
      assert writes + (w + Run(frames[n + 1..], left).writes) == (writes + w) + Run(frames[n + 1..], left).writes;
  }

  // ---------------------------------------------------------------------------
  // Properties of the frame loop
  // ---------------------------------------------------------------------------

  /** `st` with the writes `w` made before it. */
  function Precede(w: seq<Reply>, st: Step): Step
  {
    match st
    case Stopped(v) => Stopped(w + v)
    case Continued(v, left) => Continued(w + v, left)
  }

  /**
   * A binary frame gets the refusal and is then handled exactly like a text
   * frame with the same payload, because there is no `continue` after the
   * refusal.
   */
  lemma BinaryStillTested(data: string, budget: nat)
    ensures Answer(BinaryMessage, data, budget) ==
      if budget == 0 then Stopped([BinaryRefusal])
      else Precede([BinaryRefusal], Answer(TextMessage, data, budget - 1))
  {
  }

  /**
   * A text frame that is not the magic word gets exactly one hint, and the
   * loop then reads the next frame.
   */
  lemma HintThenNextFrame(data: string, rest: seq<Read>, budget: nat)
    requires !IsMagic(data)
    ensures Answer(TextMessage, data, budget) ==
      if budget == 0 then Stopped([MagicHint]) else Continued([MagicHint], budget - 1)
    ensures budget > 0 ==> Run([Frame(TextMessage, data)] + rest, budget) == Prepend([MagicHint], Run(rest, budget - 1))
  {
    assert ([Frame(TextMessage, data)] + rest)[1..] == rest;
  }

  /**
   * After the magic word every write is the notification with counter 1
   * (each "Notification 1"), the stream ends only when a write fails, and no
   * later frame is ever read.
   */
  lemma MagicStartsEndlessStream(data: string, rest: seq<Read>, budget: nat)
    requires IsMagic(data)
    ensures Answer(TextMessage, data, budget) == Stopped(Notifications(budget + 1))
    ensures Run([Frame(TextMessage, data)] + rest, budget) == Session(Notifications(budget + 1), WriteError, true)
  {
  }

  /** A binary frame carrying the magic word gets the refusal and then the notification stream. */
  lemma BinaryMagicFrame(data: string, rest: seq<Read>, budget: nat)
    requires IsMagic(data) && budget > 0
    ensures Run([Frame(BinaryMessage, data)] + rest, budget) ==
      Session([BinaryRefusal] + Notifications(budget), WriteError, true)
  {
  }

  // ---------------------------------------------------------------------------
  // An independent description: the replies asked for, cut at the first failed write
  // ---------------------------------------------------------------------------

  /**
   * The replies a sequence of frames asks for when no write fails: for each
   * frame up to a read error, the refusal if it is binary, then the hint if
   * it is not the magic word; the first magic frame starts the stream
   * (`streams`), after which nothing more is read.
   */
  datatype Demand = Demand(replies: seq<Reply>, streams: bool)

  function Asked(frames: seq<Read>): Demand
    decreases |frames|
  {
    if frames == [] || frames[0].ReadFailed? then Demand([], false)
    else
      var f := frames[0];
      var pre := if f.kind == BinaryMessage then [BinaryRefusal] else [];
      if IsMagic(f.data) then Demand(pre, true)
      else
        var d := Asked(frames[1..]);
        Demand(pre + [MagicHint] + d.replies, d.streams)
  }

  /**
   * A demand met by a transport whose first `budget` writes succeed: the
   * session makes the replies (then, when streaming, notifications) until a
   * write fails, or ends on a read error when it runs out of frames first.
   */
  function Cut(d: Demand, budget: nat): Session
  {
    if |d.replies| > budget then Session(d.replies[..budget + 1], WriteError, true)
    else if d.streams then Session(d.replies + Notifications(budget + 1 - |d.replies|), WriteError, true)
    else Session(d.replies, ReadError, true)
  }

  /** Replies asked for before a demand are met first, out of the same budget. */
  lemma CutAfter(p: seq<Reply>, d: Demand, budget: nat)
    requires |p| <= budget
    ensures Cut(Demand(p + d.replies, d.streams), budget) == Prepend(p, Cut(d, budget - |p|))
  {
    var a := p + d.replies;
    var b' := budget - |p|;
    if |d.replies| > b' {
      assert a[..budget + 1] == p + d.replies[..b' + 1];
    } else if d.streams {
      assert a + Notifications(budget + 1 - |a|) == p + (d.replies + Notifications(b' + 1 - |d.replies|));
    }
  }

  /**
   * The frame loop does nothing but answer each frame as asked, stopping at
   * the first read error or the first failed write.
   */
  lemma {:induction false} RunIsCutDemand(frames: seq<Read>, budget: nat)
    ensures Run(frames, budget) == Cut(Asked(frames), budget)
    decreases |frames|
  {
    if frames != [] && frames[0].Frame? {
      var f := frames[0];
      var pre := if f.kind == BinaryMessage then [BinaryRefusal] else [];
      if !IsMagic(f.data) {
        var p := pre + [MagicHint];
        var d := Asked(frames[1..]);
        assert Asked(frames) == Demand(p + d.replies, d.streams);
        if budget >= |p| {
          RunIsCutDemand(frames[1..], budget - |p|);
          CutAfter(p, d, budget);
        } else {
          assert (p + d.replies)[..budget + 1] == p[..budget + 1];
        }
      }
    }
  }
}
