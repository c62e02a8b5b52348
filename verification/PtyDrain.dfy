/**
  `read_max_and_close`, which drains a pseudo-terminal in a thread of its own. The end of the run reaches
  it as a flag, and it looks at the flag only some time after a `select` that came back empty; so what is
  printed in between may be lost. What it returns, and when nothing is lost, is stated exactly.
 */
module PtyDrain {
  import opened Streams

  /** What a read returns once `select` has reported something: at most so many bytes, or an end. */
  datatype Read = Cut(size: nat) | EndOfFile | HangUp | Fault

  /** What happens, in order: output, the setting of the flag, and the turns in which the thread takes a step. */
  datatype Happening = Prints(bytes: Bytes) | Stops | Turn(read: Read)

  /** The terminal when the first `at` of all happenings are over. */
  datatype Pty = Pty(unread: Bytes, stopped: bool, at: nat)

  datatype Woken = Woken(pty: Pty, read: Read)

  const READ_SIZE := 4096

  function Printed(happenings: seq<Happening>): Bytes {
    if happenings == [] then []
    else (if happenings[0].Prints? then happenings[0].bytes else []) + Printed(happenings[1..])
  }

  /** Where the thread is after its next step: past the next turn, or past everything. */
  function TurnFrom(coming: seq<Happening>, at: nat): (k: nat)
    requires at <= |coming|
    ensures at <= k <= |coming| && (at < |coming| ==> at < k)
    ensures forall i :: at <= i < k - 1 ==> !coming[i].Turn?
    ensures k < |coming| ==> coming[k - 1].Turn?
    decreases |coming| - at
  {
    if at == |coming| then at else if coming[at].Turn? then at + 1 else TurnFrom(coming, at + 1)
  }

  /** The thread waits for its next turn. There is one even when all is over, and then the flag is set. */
  function NextTurn(coming: seq<Happening>, p: Pty): Woken
    requires p.at <= |coming|
  {
    var k := TurnFrom(coming, p.at);
    var woken := p.at < k && coming[k - 1].Turn?;
    Woken(Pty(p.unread + Printed(coming[p.at..k]), p.stopped || Stops in coming[p.at..k] || !woken, k),
          if woken then coming[k - 1].read else Cut(READ_SIZE))
  }

  function Amount(size: nat, unread: nat): (n: nat)
    ensures n <= unread && (unread > 0 ==> n > 0)
  {
    var most := if unread < READ_SIZE then unread else READ_SIZE;
    if 1 <= size < most then size else most
  }

  datatype Ending = Flagged | Ended | Failed

  /** How the loop ends: why, what it has read, where its last `select` was, and what it leaves. */
  datatype Drained = Drained(why: Ending, taken: Bytes, selectAt: nat, pty: Pty)

  /** The loop: a `select`, and then either a read or, as a step of its own, the look at the flag. */
  function Drain(coming: seq<Happening>, p: Pty, taken: Bytes): Drained
    requires p.at <= |coming|
    decreases |coming| - p.at, |p.unread|
  {
    var s := NextTurn(coming, p);
    if s.read.Cut? && s.pty.unread == [] then
      var look := NextTurn(coming, s.pty);
      if look.pty.stopped then Drained(Flagged, taken, s.pty.at, look.pty) else Drain(coming, look.pty, taken)
    else if s.read.Cut? then
      var n := Amount(s.read.size, |s.pty.unread|);
      Drain(coming, s.pty.(unread := s.pty.unread[n..]), taken + s.pty.unread[..n])
    else Drained(if s.read.Fault? then Failed else Ended, taken, s.pty.at, s.pty)
  }

  const START := Pty([], false, 0)

  function FirstBytes(bytes: Bytes, max: nat): Bytes {
    if |bytes| <= max then bytes else bytes[..max]
  }

  // ----- what is returned, and what is lost -----

  lemma {:induction false} PrintedInTwo(coming: seq<Happening>, a: nat, b: nat, c: nat)
    requires a <= b <= c <= |coming|
    ensures Printed(coming[a..c]) == Printed(coming[a..b]) + Printed(coming[b..c])
    decreases b - a
  {
    if a < b {
      PrintedInTwo(coming, a + 1, b, c);
      assert coming[a..c][1..] == coming[a + 1..c] && coming[a..b][1..] == coming[a + 1..b];
    }
  }

  lemma {:induction false} PrintsNothing(happenings: seq<Happening>)
    ensures Printed(happenings) == [] <==> forall h <- happenings :: h.Prints? ==> h.bytes == []
  {
    if happenings != [] {
      PrintsNothing(happenings[1..]);
      assert forall h :: h in happenings <==> h == happenings[0] || h in happenings[1..];
    }
  }

  /** The thread has had its last turn. */
  ghost predicate NothingMore(coming: seq<Happening>, at: nat)
    requires at <= |coming|
  {
    forall i :: at <= i < |coming| ==> !coming[i].Turn?
  }

  lemma {:induction false} DrainRange(coming: seq<Happening>, p: Pty, taken: Bytes)
    requires p.at <= |coming|
    ensures var e := Drain(coming, p, taken); p.at <= e.selectAt <= e.pty.at <= |coming|
    decreases |coming| - p.at, |p.unread|
  {
    var s := NextTurn(coming, p);
    if s.read.Cut? && s.pty.unread == [] {
      var look := NextTurn(coming, s.pty);
      if !look.pty.stopped {
        DrainRange(coming, look.pty, taken);
      }
    } else if s.read.Cut? {
      var n := Amount(s.read.size, |s.pty.unread|);
      DrainRange(coming, s.pty.(unread := s.pty.unread[n..]), taken + s.pty.unread[..n]);
    }
  }

  /** The look at the flag is the very next step after the last `select`, and the flag has been set by then. */
  lemma {:induction false} DrainLooks(coming: seq<Happening>, p: Pty, taken: Bytes)
    requires p.at <= |coming| && Drain(coming, p, taken).why.Flagged?
    ensures var e := Drain(coming, p, taken);
      && p.at <= e.selectAt <= e.pty.at <= |coming|
      && e.pty.at == TurnFrom(coming, e.selectAt)
      && (p.stopped || Stops in coming[p.at..e.pty.at] || NothingMore(coming, e.selectAt))
    decreases |coming| - p.at, |p.unread|
  {
    DrainRange(coming, p, taken);
    var s := NextTurn(coming, p);
    NotWoken(coming, p.at);
    if s.pty.unread == [] {
      var look := NextTurn(coming, s.pty);
      NotWoken(coming, s.pty.at);
      if !look.pty.stopped {
        DrainLooks(coming, look.pty, taken);
        StopsInTwo(coming, p.at, look.pty.at, Drain(coming, look.pty, taken).pty.at);
      } else {
        StopsInTwo(coming, p.at, s.pty.at, look.pty.at);
      }
    } else {
      var n := Amount(s.read.size, |s.pty.unread|);
      var next, taken' := s.pty.(unread := s.pty.unread[n..]), taken + s.pty.unread[..n];
      DrainLooks(coming, next, taken');
      StopsInTwo(coming, p.at, s.pty.at, Drain(coming, next, taken').pty.at);
    }
  }

  lemma StopsInTwo(coming: seq<Happening>, a: nat, b: nat, c: nat)
    requires a <= b <= c <= |coming|
    ensures Stops in coming[a..c] <==> Stops in coming[a..b] || Stops in coming[b..c]
  {
    assert coming[a..c] == coming[a..b] + coming[b..c];
  }

  lemma NotWoken(coming: seq<Happening>, at: nat)
    requires at <= |coming|
    ensures var k := TurnFrom(coming, at); !(at < k && coming[k - 1].Turn?) ==> k == |coming| && NothingMore(coming, at)
  {
  }

  /**
    Nothing printed is duplicated, reordered or dropped: what has come so far has been read or is still
    unread.
   */
  lemma {:induction false} DrainConserves(coming: seq<Happening>, p: Pty, taken: Bytes)
    requires p.at <= |coming|
    ensures var e := Drain(coming, p, taken);
      && p.at <= e.selectAt <= e.pty.at <= |coming|
      && e.taken + e.pty.unread == taken + (p.unread + Printed(coming[p.at..e.pty.at]))
    decreases |coming| - p.at, |p.unread|
  {
    DrainRange(coming, p, taken);
    var s := NextTurn(coming, p);
    if s.read.Cut? {
      if s.pty.unread == [] {
        var look := NextTurn(coming, s.pty);
        assert look.pty.unread == [] + Printed(coming[s.pty.at..look.pty.at]);
        var at := if look.pty.stopped then look.pty.at else Drain(coming, look.pty, taken).pty.at;
        if !look.pty.stopped {
          DrainConserves(coming, look.pty, taken);
        }
        assert coming[look.pty.at..look.pty.at] == [];
        PrintedInTwo(coming, p.at, s.pty.at, at);
        PrintedInTwo(coming, s.pty.at, look.pty.at, at);
        Emptied(p.unread, Printed(coming[p.at..s.pty.at]), Printed(coming[s.pty.at..look.pty.at]),
                Printed(coming[look.pty.at..at]));
      } else {
        var n := Amount(s.read.size, |s.pty.unread|);
        var chunk, left := s.pty.unread[..n], s.pty.unread[n..];
        DrainConserves(coming, s.pty.(unread := left), taken + chunk);
        var at := Drain(coming, s.pty.(unread := left), taken + chunk).pty.at;
        PrintedInTwo(coming, p.at, s.pty.at, at);
        ReadOff(taken, chunk, left, p.unread, Printed(coming[p.at..s.pty.at]), Printed(coming[s.pty.at..at]));
      }
    }
  }

  lemma Emptied(unread: Bytes, now: Bytes, next: Bytes, later: Bytes)
    requires unread + now == []
    ensures [] + next + later == unread + (now + (next + later))
    ensures [] + next == next && next + [] == next
  {
    assert |unread| + |now| == 0;
  }

  lemma ReadOff(taken: Bytes, chunk: Bytes, left: Bytes, unread: Bytes, now: Bytes, later: Bytes)
    requires chunk + left == unread + now
    ensures taken + chunk + (left + later) == taken + (unread + (now + later))
  {
    assert chunk + (left + later) == chunk + left + later;
    assert unread + (now + later) == unread + now + later;
    assert taken + chunk + (left + later) == taken + (chunk + (left + later));
  }

  /** The loop fails only on a read that fails, and without the flag ends only on one that meets an end. */
  lemma {:induction false} DrainEnds(coming: seq<Happening>, p: Pty, taken: Bytes)
    requires p.at <= |coming|
    ensures var e := Drain(coming, p, taken);
      !e.why.Flagged? ==>
        && p.at < e.pty.at <= |coming| && coming[e.pty.at - 1].Turn?
        && var read := coming[e.pty.at - 1].read;
        && if e.why.Failed? then read.Fault? else read.EndOfFile? || read.HangUp?
    decreases |coming| - p.at, |p.unread|
  {
    var s := NextTurn(coming, p);
    if s.read.Cut? && s.pty.unread == [] {
      var look := NextTurn(coming, s.pty);
      if !look.pty.stopped {
        DrainEnds(coming, look.pty, taken);
      }
    } else if s.read.Cut? {
      var n := Amount(s.read.size, |s.pty.unread|);
      DrainEnds(coming, s.pty.(unread := s.pty.unread[n..]), taken + s.pty.unread[..n]);
    }
  }

  /** If the flag ends the loop, what has been read is what came before the last `select`. */
  lemma {:induction false} DrainReads(coming: seq<Happening>, p: Pty, taken: Bytes)
    requires p.at <= |coming| && Drain(coming, p, taken).why.Flagged?
    ensures var e := Drain(coming, p, taken);
      && p.at <= e.selectAt <= e.pty.at <= |coming|
      && e.pty.unread == Printed(coming[e.selectAt..e.pty.at])
      && e.taken == taken + (p.unread + Printed(coming[p.at..e.selectAt]))
    decreases |coming| - p.at, |p.unread|
  {
    var e := Drain(coming, p, taken);
    DrainRange(coming, p, taken);
    DrainLeaves(coming, p, taken);
    DrainConserves(coming, p, taken);
    PrintedInTwo(coming, p.at, e.selectAt, e.pty.at);
    WithoutEnd(e.taken, taken, p.unread, Printed(coming[p.at..e.selectAt]), Printed(coming[e.selectAt..e.pty.at]));
  }

  lemma WithoutEnd(all: Bytes, taken: Bytes, unread: Bytes, before: Bytes, after: Bytes)
    requires all + after == taken + (unread + (before + after))
    ensures all == taken + (unread + before)
  {
    var other := taken + (unread + before);
    assert all + after == other + after;
    assert |all| == |other|;
    assert all == (all + after)[..|all|] && other == (other + after)[..|all|];
  }

  lemma {:induction false} DrainLeaves(coming: seq<Happening>, p: Pty, taken: Bytes)
    requires p.at <= |coming| && Drain(coming, p, taken).why.Flagged?
    ensures var e := Drain(coming, p, taken);
      && e.selectAt <= e.pty.at <= |coming|
      && e.pty.unread == Printed(coming[e.selectAt..e.pty.at])
    decreases |coming| - p.at, |p.unread|
  {
    var s := NextTurn(coming, p);
    if s.pty.unread == [] {
      var look := NextTurn(coming, s.pty);
      if !look.pty.stopped {
        DrainLeaves(coming, look.pty, taken);
      }
    } else {
      var n := Amount(s.read.size, |s.pty.unread|);
      DrainLeaves(coming, s.pty.(unread := s.pty.unread[n..]), taken + s.pty.unread[..n]);
    }
  }

  /** No read meets an end or an error, so that it is the flag that ends the loop. */
  ghost predicate OnlyFlagEnds(coming: seq<Happening>) {
    forall h <- coming :: h.Turn? ==> h.read.Cut?
  }

  lemma {:induction false} FlagEnds(coming: seq<Happening>, p: Pty, taken: Bytes)
    requires p.at <= |coming| && OnlyFlagEnds(coming)
    ensures Drain(coming, p, taken).why.Flagged?
    decreases |coming| - p.at, |p.unread|
  {
    var s := NextTurn(coming, p);
    assert s.read.Cut?;
    if s.pty.unread == [] {
      var look := NextTurn(coming, s.pty);
      if !look.pty.stopped {
        FlagEnds(coming, look.pty, taken);
      }
    } else {
      var n := Amount(s.read.size, |s.pty.unread|);
      FlagEnds(coming, s.pty.(unread := s.pty.unread[n..]), taken + s.pty.unread[..n]);
    }
  }

  /**
    Exactly what is returned and what is lost when the flag ends the loop: read is what was printed before
    the last `select`, and everything printed so far has been read if and only if nothing was printed
    between that `select` and the thread's next step.
   */
  lemma DrainExact(coming: seq<Happening>)
    requires OnlyFlagEnds(coming)
    ensures var e := Drain(coming, START, []);
      && e.selectAt <= e.pty.at <= |coming|
      && e.pty.at == TurnFrom(coming, e.selectAt)
      && e.taken == Printed(coming[..e.selectAt])
      && (e.taken == Printed(coming[..e.pty.at]) <==>
            forall h <- coming[e.selectAt..e.pty.at] :: h.Prints? ==> h.bytes == [])
  {
    var e := Drain(coming, START, []);
    FlagEnds(coming, START, []);
    DrainLooks(coming, START, []);
    DrainReads(coming, START, []);
    assert coming[0..e.selectAt] == coming[..e.selectAt] && coming[0..e.pty.at] == coming[..e.pty.at];
    PrintedInTwo(coming, 0, e.selectAt, e.pty.at);
    PrintsNothing(coming[e.selectAt..e.pty.at]);
  }

  /** The thread has had a turn after the last output and before the flag was set. */
  ghost predicate Settles(coming: seq<Happening>, i: nat) {
    && i < |coming| && coming[i].Turn?
    && (forall j :: 0 <= j < i ==> coming[j] != Stops)
    && forall j :: i < j < |coming| ==> coming[j].Prints? ==> coming[j].bytes == []
  }

  /** So nothing at all is lost if the thread gets a turn in time, however the output was cut up. */
  lemma NothingLost(coming: seq<Happening>, i: nat)
    requires OnlyFlagEnds(coming) && Settles(coming, i)
    ensures Drain(coming, START, []).taken == Printed(coming)
  {
    var e := Drain(coming, START, []);
    DrainExact(coming);
    SelectsAfter(coming, i);
    PrintedInTwo(coming, 0, e.selectAt, |coming|);
    PrintsNothing(coming[e.selectAt..|coming|]);
    assert coming[0..e.selectAt] == coming[..e.selectAt] && coming[0..|coming|] == coming;
  }

  lemma SelectsAfter(coming: seq<Happening>, i: nat)
    requires OnlyFlagEnds(coming) && Settles(coming, i)
    ensures i < Drain(coming, START, []).selectAt
  {
    FlagEnds(coming, START, []);
    DrainLooks(coming, START, []);
  }

  /** But output that comes after an empty `select`, with the flag behind it, is never read. */
  lemma OutputLost(bytes: Bytes, read: Read, read': Read)
    requires bytes != [] && read.Cut? && read'.Cut?
    ensures var e := Drain([Turn(read), Prints(bytes), Stops, Turn(read')], START, []);
      e == Drained(Flagged, [], 1, Pty(bytes, true, 4))
  {
    var coming := [Turn(read), Prints(bytes), Stops, Turn(read')];
    assert TurnFrom(coming, 0) == 1 && TurnFrom(coming, 1) == 4;
    var first, second := coming[0..1], coming[1..4];
    assert first == [Turn(read)] && Printed(first) == [];
    assert second == [Prints(bytes), Stops, Turn(read')];
    assert second[1..] == [Stops, Turn(read')] && second[1..][1..] == [Turn(read')];
    PrintsNothing(second[1..]);
    assert Printed(second) == bytes;
    assert second[1] in second;
  }

  // ----- the loop -----

  datatype Returned = Output(bytes: Bytes) | Raised

  /** A write of at most as many bytes as there is room for. */
  function Kept(output: Bytes, chunk: Bytes, max: nat): Bytes {
    if max > |output| then output + FirstBytes(chunk, max - |output|) else output
  }

  lemma KeptIsFirst(taken: Bytes, chunk: Bytes, max: nat)
    ensures Kept(FirstBytes(taken, max), chunk, max) == FirstBytes(taken + chunk, max)
  {
  }

  class Terminal {
    const coming: seq<Happening>
    var pty: Pty
    var masterOpen: bool
    var slaveOpen: bool

    constructor (coming: seq<Happening>)
      ensures this.coming == coming && pty == START && masterOpen && slaveOpen
    {
      this.coming, pty, masterOpen, slaveOpen := coming, START, true, true;
    }

    /** The first bytes of what is read before the loop ends, however it ends; both ends are closed. */
    method ReadMaxAndClose(max: nat) returns (r: Returned)
      requires pty == START
      modifies this
      ensures !masterOpen && !slaveOpen
      ensures var e := Drain(coming, START, []);
        && pty == e.pty
        && (r.Raised? <==> e.why.Failed?)
        && (r.Output? ==> r.bytes <= e.taken && |r.bytes| == if |e.taken| < max then |e.taken| else max)
    {
      var output: Bytes := [];
      ghost var taken: Bytes := [];
      r := Raised;
      while true
        invariant pty.at <= |coming| && Drain(coming, pty, taken) == Drain(coming, START, [])
        invariant output == FirstBytes(taken, max)
        decreases |coming| - pty.at, |pty.unread|
      {
        var select := NextTurn(coming, pty);
        pty := select.pty;
        if pty.unread == [] && select.read.Cut? {
          pty := NextTurn(coming, pty).pty;
          if pty.stopped {
            r := Output(output);
            break;
          }
        } else if select.read.Fault? {
          break;
        } else if select.read.EndOfFile? || select.read.HangUp? {
          r := Output(output);
          break;
        } else {
          var n := Amount(select.read.size, |pty.unread|);
          var chunk := pty.unread[..n];
          KeptIsFirst(taken, chunk, max);
          output := Kept(output, chunk, max);
          pty := pty.(unread := pty.unread[n..]);
          taken := taken + chunk;
        }
      }
      masterOpen, slaveOpen := false, false;
    }
  }
}
