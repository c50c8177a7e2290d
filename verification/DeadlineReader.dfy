/** A buffered reader bound by a deadline, over a connection that fragments its stream as it likes. */
module DeadlineReader {
  import opened Base

  const NEWLINE: byte := 10
  const RETURN: byte := 13

  /** The answer of a call: data, a passed deadline, or an exception of the connection. */
  datatype Answer = Got(data: Bytes) | TimedOut | Broken | BadSize | BadHeaders

  /** A byte stream; how much each receive gives, and which receives fail, is arbitrary. */
  class Connection {
    const stream: Bytes
    const sizes: nat -> nat
    const fails: nat -> bool
    var at: nat
    var calls: nat

    constructor (stream: Bytes, sizes: nat -> nat, fails: nat -> bool)
      ensures this.stream == stream && at == 0
    {
      this.stream, this.sizes, this.fails := stream, sizes, fails;
      at, calls := 0, 0;
    }

    /** Between one byte and the limit, or nothing at the end of the stream. */
    method Recv(limit: nat) returns (data: Option<Bytes>)
      requires limit >= 1 && at <= |stream|
      modifies this
      ensures old(at) <= at <= |stream| && calls == old(calls) + 1
      ensures data == None ==> at == old(at)
      ensures data == None <==> fails(old(calls) + 1)
      ensures data.Some? ==>
                && data.value == stream[old(at)..at] && |data.value| <= limit
                && (data.value == [] <==> old(at) == |stream|)
    {
      calls := calls + 1;
      if fails(calls) {
        return None;
      }
      var most := if limit < |stream| - at then limit else |stream| - at;
      var size := if sizes(calls) < 1 then 1 else sizes(calls);
      var given := if size < most then size else most;
      at := at + given;
      return Some(stream[at - given..at]);
    }
  }

  // ----- What the calls should return -----

  /** The position of the first newline, or the length. */
  function Newline(text: Bytes): (p: nat)
    ensures p <= |text| && (p < |text| ==> text[p] == NEWLINE) && forall i | 0 <= i < p :: text[i] != NEWLINE
  {
    if text == [] || text[0] == NEWLINE then 0 else 1 + Newline(text[1..])
  }

  function Effective(limit: int): nat {
    if limit < 0 then 4097 else limit
  }

  function Cut(rest: Bytes, size: nat): Bytes {
    if |rest| <= size then rest else rest[..size]
  }

  /** The next line with its newline, cut at the limit, or all that is left. */
  function LineOf(rest: Bytes, limit: nat): Bytes {
    var p := Newline(Cut(rest, limit));
    if p < |Cut(rest, limit)| then rest[..p + 1] else Cut(rest, limit)
  }

  /** A line begins what is left and has no newline but at its end; it ends at a newline, at its limit, or with everything. */
  lemma LineIsFirst(rest: Bytes, limit: nat)
    ensures var line := LineOf(rest, limit);
            && line <= rest && |line| <= limit
            && (forall i | 0 <= i < |line| - 1 :: line[i] != NEWLINE)
            && (line == rest || |line| == limit || (line != [] && line[|line| - 1] == NEWLINE))
  {
    var line, p := LineOf(rest, limit), Newline(Cut(rest, limit));
    forall i | 0 <= i < |line| - 1
      ensures line[i] != NEWLINE
    {
      assert i < p && Cut(rest, limit)[i] == line[i];
    }
  }

  lemma {:induction false} NewlinePrefix(text: Bytes, more: Bytes)
    ensures Newline(text) < |text| ==> Newline(text + more) == Newline(text)
  {
    if text != [] && text[0] != NEWLINE {
      NewlinePrefix(text[1..], more);
      assert (text + more)[1..] == text[1..] + more;
    }
  }

  /** What is decided by the buffer does not depend on what is still unread. */
  lemma LineFromBuffer(buffer: Bytes, unread: Bytes, limit: nat)
    ensures var p := Newline(Cut(buffer, limit));
            && (p < |Cut(buffer, limit)| ==> LineOf(buffer + unread, limit) == buffer[..p + 1])
            && (p == |Cut(buffer, limit)| && |buffer| >= limit ==> LineOf(buffer + unread, limit) == buffer[..limit])
  {
    var whole := buffer + unread;
    if |buffer| >= limit {
      assert Cut(whole, limit) == Cut(buffer, limit) == buffer[..limit];
    } else {
      assert Cut(buffer, limit) == buffer;
      var more := Cut(whole, limit)[|buffer|..];
      assert Cut(whole, limit) == buffer + more;
      NewlinePrefix(buffer, more);
    }
  }

  /** The clock as its readings; they may jump. */
  type Clock = nat -> real

  ghost predicate Forward(clock: Clock) {
    forall i, j | 0 <= i <= j :: clock(i) <= clock(j)
  }

  /** The buffer does not decide the next line. */
  predicate Undecided(buffer: Bytes, limit: nat) {
    |buffer| < limit && NEWLINE !in buffer
  }

  class DeadlineInput {
    const connection: Connection
    const clock: Clock
    const deadline: real
    var ticks: nat
    var buffer: Bytes
    var headerBytes: nat
    ghost var returned: Bytes
    ghost var failed: bool

    constructor (connection: Connection, clock: Clock, seconds: real)
      requires connection.at == 0
      ensures Valid() && this.connection == connection && returned == [] && !failed
    {
      this.connection, this.clock, deadline := connection, clock, clock(0) + seconds;
      ticks, buffer, headerBytes := 1, [], 0;
      returned, failed := [], false;
    }

    /** Until a call fails, what was returned, what is buffered and what is unread make up the stream. */
    ghost predicate Valid()
      reads this`returned, this`buffer, this`failed, connection
    {
      && connection.at <= |connection.stream|
      && (!failed ==> returned + buffer == connection.stream[..connection.at])
    }

    /** Everything that later calls can still return. */
    ghost function Rest(): Bytes
      reads this`returned, this`buffer, this`failed, connection
      requires Valid()
    {
      buffer + connection.stream[connection.at..]
    }

    /** Every clock reading since this one was before the deadline. */
    ghost predicate InTime(since: nat)
      reads this`ticks
    {
      since < ticks && forall k | since <= k < ticks :: clock(k) < deadline
    }

    /** A receive that looks at the clock for the first time here is in time and does not fail. */
    ghost predicate Works(since: nat, calls: nat) {
      clock(since) < deadline && !connection.fails(calls + 1)
    }

    /** Such a receive works, and the deadline passes while it does. */
    ghost predicate Late(since: nat, calls: nat) {
      Works(since, calls) && deadline <= clock(since + 1)
    }

    method CheckTime() returns (ok: bool)
      modifies this`ticks
      ensures ticks == old(ticks) + 1
      ensures ok <==> clock(old(ticks)) < deadline
    {
      ok := clock(ticks) < deadline;
      ticks := ticks + 1;
    }

    /**
     * Receive between two looks at the clock. It takes bytes from the stream exactly when it works before the end, and
     * drops them when the deadline passes meanwhile.
     */
    method Receive(limit: nat) returns (a: Answer)
      requires limit >= 1 && connection.at <= |connection.stream|
      modifies this`ticks, connection
      ensures old(ticks) < ticks && old(connection.at) <= connection.at <= |connection.stream|
      ensures a.Got? ==>
                && InTime(old(ticks)) && |a.data| <= limit
                && a.data == connection.stream[old(connection.at)..connection.at]
                && (a.data == [] <==> old(connection.at) == |connection.stream|)
      ensures connection.at != old(connection.at) <==>
              Works(old(ticks), old(connection.calls)) && old(connection.at) < |connection.stream|
      ensures connection.calls == old(connection.calls) + (if clock(old(ticks)) < deadline then 1 else 0)
      ensures a.Got? ==> ticks == old(ticks) + 2 && Works(old(ticks), old(connection.calls))
      ensures !a.Got? ==> a.TimedOut? || a.Broken?
      ensures !a.Got? ==> (Works(old(ticks), old(connection.calls)) <==> Late(old(ticks), old(connection.calls)))
      ensures Late(old(ticks), old(connection.calls)) ==> a == TimedOut
    {
      var ok := CheckTime();
      if !ok {
        return TimedOut;
      }
      var data := connection.Recv(if limit < 8192 then limit else 8192);
      if data == None {
        return Broken;
      }
      ok := CheckTime();
      if !ok {
        return TimedOut;
      }
      return Got(data.value);
    }

    method Fail()
      requires Valid()
      modifies this`failed
      ensures Valid() && failed && Rest() == old(Rest())
    {
      failed := true;
    }

    /** Hand out the front of the buffer. */
    method Take(count: nat) returns (data: Bytes)
      requires Valid() && count <= |buffer|
      modifies this`buffer, this`returned
      ensures Valid() && data == old(buffer)[..count] && buffer == old(buffer)[count..]
      ensures data + Rest() == old(Rest()) && returned == old(returned) + data
    {
      data := buffer[..count];
      TakenApart(returned, buffer, connection.stream[connection.at..], count);
      buffer, returned := buffer[count..], returned + data;
    }

    /** Receive more behind the buffer; false at the end of the stream. */
    method Fill(limit: nat) returns (a: Answer)
      requires Valid() && limit >= 1
      modifies this`ticks, this`buffer, this`failed, connection
      ensures Valid() && old(ticks) < ticks && returned == old(returned)
      ensures a.Got? ==>
                && InTime(old(ticks)) && Rest() == old(Rest()) && failed == old(failed)
                && buffer == old(buffer) + a.data && |a.data| <= limit
                && (a.data == [] ==> Rest() == buffer)
      ensures a.Got? ==> |a.data| == connection.at - old(connection.at)
      ensures a.Got? ==> ticks == old(ticks) + 2
      ensures connection.at != old(connection.at) <==>
              Works(old(ticks), old(connection.calls)) && old(connection.at) < |connection.stream|
      ensures !a.Got? ==> failed && (a.TimedOut? || a.Broken?) && buffer == old(buffer)
      ensures !a.Got? ==> old(connection.at) <= connection.at && |Rest()| == |old(Rest())| - (connection.at - old(connection.at))
      ensures !a.Got? && connection.at == old(connection.at) ==> Rest() == old(Rest())
      ensures !a.Got? ==> (Works(old(ticks), old(connection.calls)) <==> Late(old(ticks), old(connection.calls)))
      ensures Works(old(ticks), old(connection.calls)) ==> connection.calls == old(connection.calls) + 1
      ensures old(connection.calls) <= connection.calls <= old(connection.calls) + 1
      ensures a.Got? ==> Works(old(ticks), old(connection.calls)) && !Late(old(ticks), old(connection.calls))
      ensures Late(old(ticks), old(connection.calls)) ==> a == TimedOut
    {
      ghost var was := connection.at;
      a := Receive(limit);
      if !a.Got? {
        failed := true;
        return a;
      }
      Received(connection.stream, was, connection.at, returned, buffer);
      buffer := buffer + a.data;
    }

    /** The n-th receive of a line that is read from here on works, and the deadline passes while it does. */
    ghost predicate LateReceive(since: nat, calls: nat, n: int) {
      n >= 1 && Late(since + 3 * n - 2, calls + n - 1)
    }

    lemma NotLateYet(since: nat, calls: nat, n: int)
      requires (ticks == since || InTime(since)) && ticks == since + 3 * n
      ensures !LateReceive(since, calls, n)
      ensures n >= 0 ==> (LateReceive(since, calls, n + 1) <==> Late(ticks + 1, calls + n))
    {
    }

    lemma RestLength()
      requires Valid()
      ensures connection.at <= |connection.stream| && |Rest()| == |buffer| + |connection.stream| - connection.at
    {
    }

    /** Whether the buffer alone decides the next line, and how long that is. */
    method Decide(limit: nat) returns (count: Option<nat>)
      requires Valid()
      ensures count.Some? ==> count.value <= |buffer| && LineOf(Rest(), limit) == buffer[..count.value]
      ensures count == None ==> |buffer| < limit && LineOf(buffer, limit) == buffer
      ensures Undecided(buffer, limit) ==> count == None
    {
      var position := Newline(Cut(buffer, limit));
      LineFromBuffer(buffer, connection.stream[connection.at..], limit);
      if position < |Cut(buffer, limit)| {
        return Some(position + 1);
      }
      if |buffer| >= limit {
        return Some(limit);
      }
      LineAtTheEnd(buffer, limit);
      return None;
    }

    /**
     * The next line of what is left, whatever the fragments it arrives in. A call that returns keeps every byte in
     * order and saw no clock reading at the deadline. A call that fails has returned nothing; it loses bytes exactly
     * when its last receive works before the end of the stream while the deadline passes.
     */
    method Readline(limit: int) returns (a: Answer)
      requires Valid()
      modifies this, connection
      ensures Valid() && (failed <==> old(failed) || !a.Got?)
      ensures a.Got? ==>
                && a.data == LineOf(old(Rest()), Effective(limit)) && a.data + Rest() == old(Rest())
                && InTime(old(ticks)) && returned == old(returned) + a.data
      ensures !a.Got? ==> returned == old(returned) && (a.TimedOut? || a.Broken?)
      ensures !a.Got? ==>
                (Rest() != old(Rest()) <==>
                 LateReceive(old(ticks), old(connection.calls), connection.calls - old(connection.calls))
                 && |buffer| < |old(Rest())|)
      ensures Undecided(old(buffer), Effective(limit)) && clock(old(ticks)) < deadline
              && Late(old(ticks) + 1, old(connection.calls)) && old(connection.at) < |connection.stream| ==>
                a == TimedOut && |Rest()| < |old(Rest())|
      ensures headerBytes == old(headerBytes)
    {
      hide LineOf, Valid, Undecided, Works, Late, LateReceive, Rest, Effective;
      var most := Effective(limit);
      while true
        invariant Valid() && failed == old(failed) && returned == old(returned) && Rest() == old(Rest())
        invariant old(ticks) == ticks || InTime(old(ticks))
        invariant headerBytes == old(headerBytes)
        invariant old(connection.at) <= connection.at && old(connection.calls) <= connection.calls
        invariant ticks == old(ticks) + 3 * (connection.calls - old(connection.calls))
        invariant connection.calls == old(connection.calls) ==> buffer == old(buffer) && connection.at == old(connection.at)
        invariant Late(old(ticks) + 1, old(connection.calls)) ==> connection.calls == old(connection.calls)
        decreases most - |buffer|
      {
        ghost var n, held := connection.calls - old(connection.calls), buffer;
        NotLateYet(old(ticks), old(connection.calls), n);
        var ok := CheckTime();
        if !ok {
          Fail();
          return TimedOut;
        }
        var count := Decide(most);
        if count.Some? {
          var line := Take(count.value);
          return Got(line);
        }
        RestLength();
        var received := Fill(most - |buffer|);
        if !received.Got? {
          RestLength();
          return received;
        }
        if received.data == [] {
          assert buffer == held;
          var line := Take(|buffer|);
          return Got(line);
        }
      }
    }

    /**
     * Exactly `size` bytes of what is left, or all of it when there is less. A call that fails loses bytes exactly when
     * some were asked for and the buffer held one, or the first receive works before the end of the stream.
     */
    method Read(size: int) returns (a: Answer)
      requires Valid()
      modifies this, connection
      ensures Valid()
      ensures size < 0 ==> a == BadSize && buffer == old(buffer) && connection.at == old(connection.at) && failed == old(failed)
      ensures size >= 0 ==> (failed <==> old(failed) || !a.Got?)
      ensures a.Got? ==>
                && size >= 0 && a.data == Cut(old(Rest()), size) && a.data + Rest() == old(Rest())
                && InTime(old(ticks)) && returned == old(returned) + a.data
      ensures size >= 0 && !a.Got? ==>
                (Rest() != old(Rest()) <==>
                 && size >= 1
                 && (old(buffer) != []
                     || (Works(old(ticks), old(connection.calls)) && old(connection.at) < |connection.stream|)))
      ensures size >= 1 && old(buffer) == [] && Late(old(ticks), old(connection.calls))
              && old(connection.at) < |connection.stream| ==>
                a == TimedOut && |Rest()| < |old(Rest())|
    {
      hide Valid, Cut, Rest, InTime;
      if size < 0 {
        return BadSize;
      }
      CutLength(buffer, size);
      var result := Take(|Cut(buffer, size)|);
      ghost var rest := Rest();
      ghost var more;
      a, more := Collect(result, size);
      if !a.Got? {
        LeftOver(result, rest, Rest(), connection.at - old(connection.at));
        return a;
      }
      var ok := CheckInTime(old(ticks));
      Chain(result, more, Rest(), rest);
      if !ok {
        Fail();
        LeftOver(result + more, Rest(), Rest(), 0);
        assert |result + more| == |result| + |more|;
        return TimedOut;
      }
      CutIs(old(Rest()), a.data, Rest(), size);
    }

    /** Look at the clock once more; on success everything since then was in time. */
    method CheckInTime(ghost since: nat) returns (ok: bool)
      requires since <= ticks && (since == ticks || InTime(since))
      modifies this`ticks
      ensures ok ==> InTime(since)
    {
      ok := CheckTime();
    }

    /** Receive until there are `size` bytes with those at hand, or the stream ends. */
    method Collect(have: Bytes, size: nat) returns (a: Answer, ghost more: Bytes)
      requires Valid() && |have| <= size && (|have| < size ==> buffer == [])
      modifies this`ticks, this`buffer, this`returned, this`failed, connection
      ensures Valid() && old(ticks) <= ticks && old(connection.at) <= connection.at
      ensures a.Got? ==>
                && a.data == have + more && more + Rest() == old(Rest()) && returned == old(returned) + more
                && |a.data| <= size && (|a.data| == size || Rest() == [])
                && |more| == connection.at - old(connection.at) && failed == old(failed)
                && (old(ticks) == ticks || InTime(old(ticks)))
      ensures !a.Got? ==>
                && failed && (a.TimedOut? || a.Broken?) && |Rest()| == |old(Rest())| - (connection.at - old(connection.at))
                && (connection.at == old(connection.at) ==> Rest() == old(Rest()))
      ensures |have| == size ==> a.Got? && connection.at == old(connection.at)
      ensures |have| < size ==>
                (connection.at != old(connection.at) <==>
                 Works(old(ticks), old(connection.calls)) && old(connection.at) < |connection.stream|)
      ensures |have| < size && Late(old(ticks), old(connection.calls)) && old(connection.at) < |connection.stream| ==>
                a == TimedOut
    {
      hide Valid, Late, Works, Rest;
      var result := have;
      more := [];
      ghost var start := Rest();
      while |result| < size
        invariant Valid() && |result| <= size && result == have + more && failed == old(failed)
        invariant |result| < size ==> buffer == []
        invariant more + Rest() == start && returned == old(returned) + more
        invariant |more| == connection.at - old(connection.at)
        invariant old(ticks) == ticks || InTime(old(ticks))
        invariant more == [] ==> old(ticks) == ticks && connection.calls == old(connection.calls)
        invariant more != [] ==>
                    && Works(old(ticks), old(connection.calls)) && old(connection.at) < |connection.stream|
                    && !Late(old(ticks), old(connection.calls))
        decreases size - |result|
      {
        ghost var rest := Rest();
        var received := Fill(size - |result|);
        if !received.Got? {
          LeftOver(more, rest, Rest(), connection.at - old(connection.at) - |more|);
          return received, more;
        }
        if received.data == [] {
          break;
        }
        var data := Take(|received.data|);
        Chain(more, data, Rest(), rest);
        Appended(have, more, data);
        Appended(old(returned), more, data);
        result, more := result + data, more + data;
      }
      a := Got(result);
    }

    /** A header line of a response: bounded by itself and in sum, and properly ended. */
    method HeaderLine(limit: int) returns (a: Answer)
      requires Valid()
      modifies this, connection
      ensures Valid()
      ensures a.Got? ==>
                && 2 <= |a.data| <= 4096 && headerBytes == old(headerBytes) + |a.data| <= 16384
                && a.data[|a.data| - 2..] == [RETURN, NEWLINE]
                && a.data == LineOf(old(Rest()), Effective(if limit < 4097 then limit else 4097))
                && a.data + Rest() == old(Rest()) && InTime(old(ticks))
    {
      a := Readline(if limit < 4097 then limit else 4097);
      if a.Got? {
        headerBytes := headerBytes + |a.data|;
        if |a.data| > 4096 || headerBytes > 16384 || |a.data| < 2 || a.data[|a.data| - 2..] != [RETURN, NEWLINE] {
          return BadHeaders;
        }
      }
    }

    /** With a clock that never goes back, nothing is returned once the deadline has been seen. */
    lemma NothingAfterTheDeadline(since: nat, seen: nat)
      requires Forward(clock) && seen < since && clock(seen) >= deadline
      ensures !InTime(since)
    {
      assert clock(seen) <= clock(since);
    }
  }

  lemma TakenApart(returned: Bytes, buffer: Bytes, unread: Bytes, count: nat)
    requires count <= |buffer|
    ensures buffer[..count] + (buffer[count..] + unread) == buffer + unread
    ensures (returned + buffer[..count]) + buffer[count..] == returned + buffer
  {
    assert buffer == buffer[..count] + buffer[count..];
  }

  lemma Received(stream: Bytes, was: nat, now: nat, returned: Bytes, buffer: Bytes)
    requires was <= now <= |stream|
    ensures buffer + stream[was..] == (buffer + stream[was..now]) + stream[now..]
    ensures returned + buffer == stream[..was] ==> returned + (buffer + stream[was..now]) == stream[..now]
  {
    assert stream[was..] == stream[was..now] + stream[now..];
    assert stream[..now] == stream[..was] + stream[was..now];
    assert returned + (buffer + stream[was..now]) == (returned + buffer) + stream[was..now];
  }

  /** At the end of the stream, what is buffered without a newline is the last line. */
  lemma LineAtTheEnd(buffer: Bytes, limit: nat)
    requires |buffer| < limit && Newline(Cut(buffer, limit)) == |Cut(buffer, limit)|
    ensures LineOf(buffer, limit) == buffer
  {
  }

  lemma Chain(first: Bytes, second: Bytes, left: Bytes, rest: Bytes)
    requires second + left == rest
    ensures (first + second) + left == first + rest
  {
    assert (first + second) + left == first + (second + left);
  }

  lemma Appended(first: Bytes, second: Bytes, third: Bytes)
    ensures (first + second) + third == first + (second + third)
  {
  }

  /** After some bytes were taken, what is left is the whole again only if nothing was taken or dropped. */
  lemma LeftOver(taken: Bytes, rest: Bytes, left: Bytes, dropped: nat)
    requires |left| == |rest| - dropped && (dropped == 0 ==> left == rest)
    ensures left == taken + rest <==> taken == [] && dropped == 0
  {
    assert |taken + rest| == |taken| + |rest|;
  }

  lemma CutLength(text: Bytes, size: nat)
    ensures |Cut(text, size)| <= size && |Cut(text, size)| <= |text| && Cut(text, size) == text[..|Cut(text, size)|]
    ensures |Cut(text, size)| < size ==> |Cut(text, size)| == |text|
    ensures Cut(text, size) == [] <==> size == 0 || text == []
  {
  }

  lemma CutIs(rest: Bytes, result: Bytes, left: Bytes, size: nat)
    requires result + left == rest && |result| <= size && (|result| == size || left == [])
    ensures Cut(rest, size) == result
  {
    assert rest[..|result|] == result;
  }
}
