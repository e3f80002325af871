/** The input handler of a session: cuts the byte stream of a connection into records. */
module Framing {
  import opened Bytes
  import opened SlidingBuffer

  // ---------------------------------------------------------------- matching

  /** What pcre_exec says of the unread bytes, anchored at their start, with PCRE_PARTIAL_HARD. */
  datatype Outcome = Match(n: nat) | Partial | NoMatch

  type Matcher = seq<byte> -> Outcome

  /** A match is never empty nor beyond the bytes there are; more bytes behind do not change
      a match or the absence of one. */
  ghost predicate Stable(m: Matcher) {
    && (forall a: seq<byte> :: m(a).Match? ==> 0 < m(a).n <= |a|)
    && (forall a: seq<byte>, b: seq<byte> :: m(a) != Partial ==> m(a + b) == m(a))
  }

  datatype Tokenised = Tokenised(requests: seq<seq<byte>>, rest: seq<byte>, failed: bool)

  /** The greedy cutting of a byte string into records. */
  function Tokens(m: Matcher, input: seq<byte>): (t: Tokenised)
    decreases |input|
  {
    if input == [] then Tokenised([], [], false)
    else match m(input)
      case Match(n) =>
        if 0 < n <= |input| then
          var t := Tokens(m, input[n..]);
          Tokenised([input[..n]] + t.requests, t.rest, t.failed)
        else Tokenised([], input, true)
      case Partial => Tokenised([], input, false)
      case NoMatch => Tokenised([], input, true)
  }

  lemma {:induction false} TokensAreTheInput(m: Matcher, input: seq<byte>)
    ensures input == Flatten(Tokens(m, input).requests) + Tokens(m, input).rest
    decreases |input|
  {
    if input != [] && m(input).Match? && 0 < m(input).n <= |input| {
      var n := m(input).n;
      TokensAreTheInput(m, input[n..]);
      FirstToken(m, input, n);
      FirstPiece(input, n, Tokens(m, input[n..]));
    }
  }

  lemma FirstPiece(input: seq<byte>, n: nat, t: Tokenised)
    requires n <= |input| && input[n..] == Flatten(t.requests) + t.rest
    ensures input == Flatten([input[..n]] + t.requests) + t.rest
  {
    FlattenAppend([input[..n]], t.requests);
    FlattenSnoc([], input[..n]);
    assert [] + [input[..n]] == [input[..n]];
    assert input == input[..n] + input[n..];
  }

  function Behind(done: seq<seq<byte>>, t: Tokenised): Tokenised {
    Tokenised(done + t.requests, t.rest, t.failed)
  }

  /** Goes on with more bytes behind what has been cut so far. */
  function Extended(m: Matcher, t: Tokenised, b: seq<byte>): Tokenised {
    if t.failed then Tokenised(t.requests, t.rest + b, true)
    else Behind(t.requests, Tokens(m, t.rest + b))
  }

  lemma ExtendedBehind(m: Matcher, done: seq<seq<byte>>, t: Tokenised, b: seq<byte>)
    ensures Extended(m, Behind(done, t), b) == Behind(done, Extended(m, t, b))
  {
    var u := Tokens(m, t.rest + b);
    assert (done + t.requests) + u.requests == done + (t.requests + u.requests);
  }

  lemma FirstToken(m: Matcher, a: seq<byte>, n: nat)
    requires m(a) == Match(n) && 0 < n <= |a|
    ensures Tokens(m, a) == Behind([a[..n]], Tokens(m, a[n..]))
  {
  }

  /** Cutting a prefix first does not change how the whole is cut. */
  lemma {:induction false} TokensExtend(m: Matcher, a: seq<byte>, b: seq<byte>)
    requires Stable(m)
    ensures Tokens(m, a + b) == Extended(m, Tokens(m, a), b)
    decreases |a|
  {
    if a == [] {
      assert a + b == b;
    } else if m(a).Match? {
      var n := m(a).n;
      assert m(a + b) == m(a);
      assert (a + b)[..n] == a[..n] && (a + b)[n..] == a[n..] + b;
      FirstToken(m, a, n);
      FirstToken(m, a + b, n);
      TokensExtend(m, a[n..], b);
      ExtendedBehind(m, [a[..n]], Tokens(m, a[n..]), b);
    } else if m(a).NoMatch? {
      assert m(a + b) == m(a);
    }
  }

  // ---------------------------------------------------------------- a session, as a value

  /** What the record handler does: does it call close_session after these records? */
  type Handler = seq<seq<byte>> -> bool

  datatype Session = Session(window: seq<byte>, requests: seq<seq<byte>>, closed: bool)

  const Fresh: Session := Session([], [], false)

  /** The handler has closed the session at one of the records behind the first `from`. */
  ghost predicate Closes(h: Handler, requests: seq<seq<byte>>, from: nat) {
    exists k :: from < k <= |requests| && h(requests[..k])
  }

  /** All complete records of the window are handled. */
  ghost function Cut(m: Matcher, h: Handler, s: Session): Session {
    var t := Tokens(m, s.window);
    Session(t.rest, s.requests + t.requests, s.closed || t.failed || Closes(h, s.requests + t.requests, |s.requests|))
  }

  /** One call of the input handler that reads the given bytes. */
  ghost function Feed(m: Matcher, h: Handler, s: Session, chunk: seq<byte>): Session {
    Cut(m, h, s.(window := s.window + chunk))
  }

  /** The input handler is no longer called once the link is closed. */
  ghost function FeedAll(m: Matcher, h: Handler, chunks: seq<seq<byte>>): Session {
    if chunks == [] then Fresh
    else
      var s := FeedAll(m, h, chunks[..|chunks| - 1]);
      if s.closed then s else Feed(m, h, s, chunks[|chunks| - 1])
  }

  /** How many of the chunks are read. */
  ghost function Taken(m: Matcher, h: Handler, chunks: seq<seq<byte>>): (k: nat)
    ensures k <= |chunks|
  {
    if chunks == [] then 0
    else if FeedAll(m, h, chunks[..|chunks| - 1]).closed then Taken(m, h, chunks[..|chunks| - 1])
    else |chunks|
  }

  /** The records handled are exactly the greedy cutting of the bytes read, the window is what
      is left of them, and the session is closed exactly if these bytes end in something that
      cannot match or a record closed it. */
  ghost predicate Delivered(m: Matcher, h: Handler, s: Session, read: seq<byte>) {
    var t := Tokens(m, read);
    s.requests == t.requests && s.window == t.rest && (s.closed <==> t.failed || Closes(h, t.requests, 0))
  }

  /** However the network cuts the stream. */
  lemma {:induction false} DeliveryIsTokens(m: Matcher, h: Handler, chunks: seq<seq<byte>>)
    requires Stable(m)
    ensures Delivered(m, h, FeedAll(m, h, chunks), Flatten(chunks[..Taken(m, h, chunks)]))
    ensures !FeedAll(m, h, chunks).closed ==> Taken(m, h, chunks) == |chunks|
  {
    if chunks != [] {
      var front, last := chunks[..|chunks| - 1], chunks[|chunks| - 1];
      DeliveryIsTokens(m, h, front);
      var s := FeedAll(m, h, front);
      if s.closed {
        assert chunks[..Taken(m, h, chunks)] == front[..Taken(m, h, front)];
      } else {
        assert front[..Taken(m, h, front)] == front && chunks[..Taken(m, h, chunks)] == chunks;
        assert chunks == front + [last];
        FlattenSnoc(front, last);
        FeedExtends(m, h, s, Flatten(front), last);
      }
    }
  }

  lemma FeedExtends(m: Matcher, h: Handler, s: Session, read: seq<byte>, last: seq<byte>)
    requires Stable(m) && !s.closed && Delivered(m, h, s, read)
    ensures Delivered(m, h, Feed(m, h, s, last), read + last)
  {
    TokensExtend(m, read, last);
    ClosesSplits(h, s.requests, Tokens(m, s.window + last).requests);
  }

  lemma ClosesSplits(h: Handler, a: seq<seq<byte>>, b: seq<seq<byte>>)
    ensures Closes(h, a + b, 0) <==> Closes(h, a, 0) || Closes(h, a + b, |a|)
  {
    if Closes(h, a, 0) {
      var k :| 0 < k <= |a| && h(a[..k]);
      assert (a + b)[..k] == a[..k];
    }
    if Closes(h, a + b, 0) {
      var k :| 0 < k <= |a + b| && h((a + b)[..k]);
      if k <= |a| {
        assert (a + b)[..k] == a[..k];
      }
    }
  }

  lemma TakenIsPrefix(m: Matcher, h: Handler, chunks: seq<seq<byte>>)
    requires Stable(m)
    ensures var k := Taken(m, h, chunks);
            var t, all := Tokens(m, Flatten(chunks[..k])), Tokens(m, Flatten(chunks));
            && |t.requests| <= |all.requests| && t.requests == all.requests[..|t.requests|]
            && (t.failed ==> all.failed && t.requests == all.requests)
  {
    var k := Taken(m, h, chunks);
    assert chunks == chunks[..k] + chunks[k..];
    FlattenAppend(chunks[..k], chunks[k..]);
    TokensExtend(m, Flatten(chunks[..k]), Flatten(chunks[k..]));
  }

  /** Chunk independence: if the handler never closes, all ways to cut the same bytes into
      reads deliver the same records, and all of them close the session or none does. */
  lemma ChunkIndependence(m: Matcher, h: Handler, a: seq<seq<byte>>, b: seq<seq<byte>>)
    requires Stable(m) && Flatten(a) == Flatten(b)
    requires forall rs :: !h(rs)
    ensures FeedAll(m, h, a).requests == FeedAll(m, h, b).requests == Tokens(m, Flatten(a)).requests
    ensures FeedAll(m, h, a).closed == FeedAll(m, h, b).closed == Tokens(m, Flatten(a)).failed
  {
    DeliversAll(m, h, a);
    DeliversAll(m, h, b);
  }

  lemma DeliversAll(m: Matcher, h: Handler, chunks: seq<seq<byte>>)
    requires Stable(m)
    requires forall rs :: !h(rs)
    ensures FeedAll(m, h, chunks).requests == Tokens(m, Flatten(chunks)).requests
    ensures FeedAll(m, h, chunks).closed == Tokens(m, Flatten(chunks)).failed
  {
    DeliveryIsTokens(m, h, chunks);
    TakenIsPrefix(m, h, chunks);
    if Taken(m, h, chunks) == |chunks| {
      assert chunks[..|chunks|] == chunks;
    }
  }

  /** With a handler that may close, the delivery is the same for all ways to cut the input
      exactly if no prefix of the input on which it closes falls short of a record of the
      whole: what is behind the closing record in the same read is still delivered. */
  lemma SplitsAgreeIff(m: Matcher, h: Handler, input: seq<byte>)
    requires Stable(m)
    ensures (forall chunks :: Flatten(chunks) == input ==> FeedAll(m, h, chunks).requests == Tokens(m, input).requests)
            <==> (forall p :: 0 <= p <= |input| ==> NoRecordCutOff(m, h, input, p))
  {
    if forall p :: 0 <= p <= |input| ==> NoRecordCutOff(m, h, input, p) {
      forall chunks | Flatten(chunks) == input
        ensures FeedAll(m, h, chunks).requests == Tokens(m, input).requests
      {
        NothingCutOff(m, h, input, chunks);
      }
    } else {
      var p :| 0 <= p <= |input| && !NoRecordCutOff(m, h, input, p);
      SomethingCutOff(m, h, input, p);
    }
  }

  lemma SomethingCutOff(m: Matcher, h: Handler, input: seq<byte>, p: nat)
    requires p <= |input| && !NoRecordCutOff(m, h, input, p)
    ensures exists chunks :: Flatten(chunks) == input && FeedAll(m, h, chunks).requests != Tokens(m, input).requests
  {
    var a, b := input[..p], input[p..];
    assert a + b == input;
    FlattenTwo(a, b);
    TwoChunks(m, h, a, b);
    assert Flatten([a, b]) == input && FeedAll(m, h, [a, b]).requests != Tokens(m, input).requests;
  }

  ghost predicate NoRecordCutOff(m: Matcher, h: Handler, input: seq<byte>, p: nat)
    requires p <= |input|
  {
    var early := Tokens(m, input[..p]).requests;
    Closes(h, early, 0) ==> early == Tokens(m, input).requests
  }

  lemma NothingCutOff(m: Matcher, h: Handler, input: seq<byte>, chunks: seq<seq<byte>>)
    requires Stable(m) && Flatten(chunks) == input
    requires forall p :: 0 <= p <= |input| ==> NoRecordCutOff(m, h, input, p)
    ensures FeedAll(m, h, chunks).requests == Tokens(m, input).requests
  {
    DeliveryIsTokens(m, h, chunks);
    TakenIsPrefix(m, h, chunks);
    var k := Taken(m, h, chunks);
    if k == |chunks| {
      assert chunks[..k] == chunks;
    } else {
      var read := Flatten(chunks[..k]);
      ReadIsPrefix(chunks, k);
      assert NoRecordCutOff(m, h, input, |read|);
    }
  }

  lemma ReadIsPrefix(chunks: seq<seq<byte>>, k: nat)
    requires k <= |chunks|
    ensures |Flatten(chunks[..k])| <= |Flatten(chunks)|
    ensures Flatten(chunks)[..|Flatten(chunks[..k])|] == Flatten(chunks[..k])
  {
    assert chunks == chunks[..k] + chunks[k..];
    FlattenAppend(chunks[..k], chunks[k..]);
  }

  // ---------------------------------------------------------------- close_session

  /** No record is handled after one at which the handler called close_session. */
  ghost predicate NoneAfterClose(h: Handler, requests: seq<seq<byte>>) {
    forall k :: 0 < k < |requests| ==> !h(requests[..k])
  }

  /** "No further input will be processed" after close_session, taken for records: this holds
      for every way to cut the input exactly if the handler closes at none of the records of
      the input but the last one. */
  lemma NoneAfterCloseIff(m: Matcher, h: Handler, input: seq<byte>)
    requires Stable(m)
    ensures (forall chunks :: Flatten(chunks) == input ==> NoneAfterClose(h, FeedAll(m, h, chunks).requests))
            <==> NoneAfterClose(h, Tokens(m, input).requests)
  {
    if NoneAfterClose(h, Tokens(m, input).requests) {
      forall chunks | Flatten(chunks) == input
        ensures NoneAfterClose(h, FeedAll(m, h, chunks).requests)
      {
        AllDelivered(m, h, input, chunks);
      }
    } else {
      InOneRead(m, h, input);
    }
  }

  /** In this case all ways to cut the input deliver all of its records. */
  lemma AllDelivered(m: Matcher, h: Handler, input: seq<byte>, chunks: seq<seq<byte>>)
    requires Stable(m) && Flatten(chunks) == input
    requires NoneAfterClose(h, Tokens(m, input).requests)
    ensures FeedAll(m, h, chunks).requests == Tokens(m, input).requests
  {
    DeliveryIsTokens(m, h, chunks);
    TakenIsPrefix(m, h, chunks);
    var k := Taken(m, h, chunks);
    if k == |chunks| {
      assert chunks[..k] == chunks;
    } else {
      ClosedAtTheEnd(h, Tokens(m, Flatten(chunks[..k])).requests, Tokens(m, input).requests);
    }
  }

  lemma ClosedAtTheEnd(h: Handler, early: seq<seq<byte>>, all: seq<seq<byte>>)
    requires |early| <= |all| && early == all[..|early|] && NoneAfterClose(h, all)
    ensures Closes(h, early, 0) ==> early == all
  {
    if Closes(h, early, 0) {
      var k :| 0 < k <= |early| && h(early[..k]);
      assert early[..k] == all[..k];
    }
  }

  lemma InOneRead(m: Matcher, h: Handler, input: seq<byte>)
    ensures exists chunks :: Flatten(chunks) == input && FeedAll(m, h, chunks).requests == Tokens(m, input).requests
  {
    assert [input][..0] == [] && Fresh.window + input == input;
    assert FeedAll(m, h, [input]) == Feed(m, h, Fresh, input);
    FlattenSnoc([], input);
    assert [] + [input] == [input];
    assert Flatten([input]) == input && FeedAll(m, h, [input]).requests == Tokens(m, input).requests;
  }

  /** Cut in two: if the handler closes on the first part, nothing of the second is read. */
  lemma TwoChunks(m: Matcher, h: Handler, a: seq<byte>, b: seq<byte>)
    ensures Closes(h, Tokens(m, a).requests, 0) ==> FeedAll(m, h, [a, b]).requests == Tokens(m, a).requests
  {
    assert [a, b][..1] == [a] && [a][..0] == [];
    assert [] + a == a;
    assert Fresh.window + a == a && Fresh.requests + Tokens(m, a).requests == Tokens(m, a).requests;
    assert FeedAll(m, h, [a]) == Feed(m, h, Fresh, a);
  }

  /** One-byte records and a handler that closes at the first of them: read together, the
      second record is still handled after close_session, against its documentation; read one
      by one, it is not. */
  lemma ClosingDependsOnTheNetwork(m: Matcher, h: Handler, x: byte)
    requires forall a: seq<byte> :: m(a) == if a == [] then Partial else Match(1)
    requires forall rs :: h(rs)
    ensures FeedAll(m, h, [[x, x]]).requests == [[x], [x]]
    ensures FeedAll(m, h, [[x], [x]]).requests == [[x]]
  {
    assert Tokens(m, [x]).requests == [[x]] by {
      assert [x][..1] == [x] && [x][1..] == [];
    }
    assert Tokens(m, [x, x]).requests == [[x], [x]] by {
      assert [x, x][..1] == [x] && [x, x][1..] == [x];
    }
    assert [[x, x]][..0] == [] && Fresh.window + [x, x] == [x, x];
    assert FeedAll(m, h, [[x, x]]) == Feed(m, h, Fresh, [x, x]);
    assert h([[x]][..1]);
    TwoChunks(m, h, [x], [x]);
  }

  // ---------------------------------------------------------------- the input handler

  lemma OneMoreToken(m: Matcher, done: seq<seq<byte>>, input: seq<byte>, n: nat)
    requires input != [] && m(input) == Match(n) && 0 < n <= |input|
    ensures Behind(done, Tokens(m, input)) == Behind(done + [input[..n]], Tokens(m, input[n..]))
  {
    var t := Tokens(m, input[n..]);
    assert done + ([input[..n]] + t.requests) == (done + [input[..n]]) + t.requests;
  }

  lemma ClosesSnoc(h: Handler, requests: seq<seq<byte>>, x: seq<byte>, from: nat)
    requires from <= |requests|
    ensures Closes(h, requests + [x], from) <==> Closes(h, requests, from) || h(requests + [x])
  {
    var all := requests + [x];
    assert all[..|all|] == all;
    if Closes(h, requests, from) {
      var k :| from < k <= |requests| && h(requests[..k]);
      assert all[..k] == requests[..k];
    }
    if Closes(h, all, from) {
      var k :| from < k <= |all| && h(all[..k]);
      if k <= |requests| {
        assert all[..k] == requests[..k];
      }
    }
  }

  /** The state of the loop after these records of the window of `before`. */
  ghost predicate InTheMiddle(m: Matcher, h: Handler, before: Session, done: seq<seq<byte>>, s: Session) {
    && Tokens(m, before.window) == Behind(done, Tokens(m, s.window))
    && s.requests == before.requests + done
    && s.closed == (before.closed || Closes(h, s.requests, |before.requests|))
  }

  lemma OneMoreRecord(m: Matcher, h: Handler, before: Session, done: seq<seq<byte>>, s: Session, n: nat)
    requires InTheMiddle(m, h, before, done, s)
    requires s.window != [] && m(s.window) == Match(n) && 0 < n <= |s.window|
    ensures var requests := s.requests + [s.window[..n]];
            InTheMiddle(m, h, before, done + [s.window[..n]], Session(s.window[n..], requests, s.closed || h(requests)))
  {
    OneMoreToken(m, done, s.window, n);
    ClosesSnoc(h, s.requests, s.window[..n], |before.requests|);
    assert s.requests + [s.window[..n]] == before.requests + (done + [s.window[..n]]);
  }

  lemma LastRecord(m: Matcher, h: Handler, before: Session, done: seq<seq<byte>>, s: Session, outcome: Outcome)
    requires InTheMiddle(m, h, before, done, s)
    requires if s.window == [] then outcome != NoMatch else outcome == m(s.window) && !outcome.Match?
    ensures Cut(m, h, before) == s.(closed := s.closed || outcome == NoMatch)
  {
    assert done + [] == done;
  }

  class SessionState {
    const buffer: SlidingBuffer
    var closed: bool
    var requests: seq<seq<byte>>    // what the record handler has been given, in order

    ghost predicate Valid()
      reads this, buffer, buffer.s
    {
      buffer.Valid()
    }

    ghost function Value(): Session
      requires Valid()
      reads this, buffer, buffer.s
    {
      Session(buffer.Window(), requests, closed)
    }

    constructor ()
      ensures Valid() && fresh(buffer) && fresh(buffer.s) && Value() == Fresh
    {
      buffer := new SlidingBuffer();
      closed := false;
      requests := [];
    }

    /** mpx_input_handler on a link with pending input: one read of at least one byte, as many
        as the network gives and the buffer has room for, and then all complete records. */
    method Input(m: Matcher, h: Handler, pending: seq<byte>, arrives: nat, slack: nat, memory: bool) returns (n: nat)
      requires Valid() && Stable(m) && pending != [] && !closed
      modifies this, buffer, buffer.s
      ensures Valid() && (buffer.s == old(buffer.s) || fresh(buffer.s))
      ensures n <= |pending|
      ensures n == 0 ==> !memory && Value() == old(Value()).(closed := true)
      ensures n > 0 ==> n == (if arrives == 0 then 1 else arrives) || n == |pending| || n >= 2048
      ensures n > 0 ==> Value() == Feed(m, h, old(Value()), pending[..n])
    {
      var ready := buffer.Ready(2048, slack, memory);
      if !ready {
        closed := true;
        return 0;
      }
      n := if arrives == 0 then 1 else arrives;
      if n > |pending| {
        n := |pending|;
      }
      if n > buffer.Free() {
        n := buffer.Free();
      }
      buffer.Append(pending[..n]);
      Records(m, h);
    }

    /** One call of the record handler. */
    method HandleRecord(h: Handler, n: nat)
      requires Valid() && 0 < n <= |buffer.Window()|
      modifies this`closed, this`requests, buffer`offset, buffer`expired
      ensures Valid()
      ensures buffer.offset == old(buffer.offset) + n
      ensures Value() == (var s := old(Value());
                          var all := s.requests + [s.window[..n]];
                          Session(s.window[n..], all, s.closed || h(all)))
    {
      requests := requests + [buffer.Window()[..n]];
      closed := closed || h(requests);
      buffer.Expire(n);
    }

    /** The loop over the complete records of the window. */
    method Records(m: Matcher, h: Handler)
      requires Valid() && Stable(m)
      modifies this`closed, this`requests, buffer`offset, buffer`expired
      ensures Valid()
      ensures Value() == Cut(m, h, old(Value()))
    {
      ghost var before, done: seq<seq<byte>> := Value(), [];
      var outcome := Partial;
      while buffer.offset < buffer.len
        invariant Valid() && outcome != NoMatch
        invariant InTheMiddle(m, h, before, done, Value())
        decreases buffer.len - buffer.offset
      {
        outcome := m(buffer.Window());
        if !outcome.Match? {
          break;
        }
        OneMoreRecord(m, h, before, done, Value(), outcome.n);
        done := done + [buffer.Window()[..outcome.n]];
        HandleRecord(h, outcome.n);
      }
      LastRecord(m, h, before, done, Value(), outcome);
      if outcome == NoMatch {
        closed := true;
      }
    }

    /** The calls of the input handler for a whole incoming stream, however it arrives, with
        enough memory. If the record handler closes at no record but the last one, exactly the
        greedy cutting of the stream has been delivered. */
    method Serve(m: Matcher, h: Handler, stream: seq<byte>) returns (ghost chunks: seq<seq<byte>>)
      requires Valid() && Stable(m) && Value() == Fresh
      modifies this, buffer, buffer.s
      ensures Valid() && Flatten(chunks) == stream && Value() == FeedAll(m, h, chunks)
      ensures NoneAfterClose(h, Tokens(m, stream).requests) ==> requests == Tokens(m, stream).requests
      ensures (forall rs :: !h(rs)) ==> requests == Tokens(m, stream).requests && closed == Tokens(m, stream).failed
    {
      var pos := 0;
      chunks := [];
      while pos < |stream| && !closed
        invariant Valid() && (buffer.s == old(buffer.s) || fresh(buffer.s))
        invariant pos <= |stream| && Flatten(chunks) == stream[..pos] && Value() == FeedAll(m, h, chunks)
      {
        var arrives: nat, slack: nat := *, *;
        var n := Input(m, h, stream[pos..], arrives, slack, true);
        OneMoreChunk(m, h, chunks, stream, pos, n);
        chunks := chunks + [stream[pos..][..n]];
        pos := pos + n;
      }
      if pos < |stream| {
        OneMoreChunk(m, h, chunks, stream, pos, |stream| - pos);
        chunks := chunks + [stream[pos..][..|stream| - pos]];
      }
      assert stream[..|stream|] == stream;
      if NoneAfterClose(h, Tokens(m, stream).requests) {
        AllDelivered(m, h, stream, chunks);
      }
      if forall rs :: !h(rs) {
        DeliversAll(m, h, chunks);
      }
    }
  }

  lemma OneMoreChunk(m: Matcher, h: Handler, chunks: seq<seq<byte>>, stream: seq<byte>, pos: nat, n: nat)
    requires pos + n <= |stream| && Flatten(chunks) == stream[..pos]
    ensures var chunk := stream[pos..][..n];
            && Flatten(chunks + [chunk]) == stream[..pos + n]
            && FeedAll(m, h, chunks + [chunk]) ==
               if FeedAll(m, h, chunks).closed then FeedAll(m, h, chunks) else Feed(m, h, FeedAll(m, h, chunks), chunk)
  {
    var chunk := stream[pos..][..n];
    FlattenSnoc(chunks, chunk);
    assert stream[..pos] + chunk == stream[..pos + n];
    assert (chunks + [chunk])[..|chunks|] == chunks;
  }
}
