/**
 The framing of the chat protocol: a header of four decimal digits with the length of the
 body, then the body. The reader is shown to recover the messages from any prefix of the
 byte stream.
 */
module ChatMessage {

  const HEADER_LENGTH: nat := 4
  const MAX_BODY_LENGTH: nat := 512

  type Body = s: seq<char> | |s| <= MAX_BODY_LENGTH witness []

  datatype Option<T> = None | Some(value: T)

  predicate IsDigit(c: char) {
    '0' <= c <= '9'
  }

  function Digit(n: nat): (c: char)
    requires n < 10
    ensures IsDigit(c)
  {
    '0' + n as char
  }

  function DigitValue(c: char): (n: nat)
    requires IsDigit(c)
    ensures n < 10
  {
    (c - '0') as nat
  }

  /** `sprintf` with "%04d", below ten thousand. */
  function FourDigits(n: nat): (s: seq<char>)
    requires n < 10000
    ensures |s| == HEADER_LENGTH
  {
    [Digit(n / 1000), Digit(n / 100 % 10), Digit(n / 10 % 10), Digit(n % 10)]
  }

  /** `from_chars`: the number written by the longest run of digits at the front; an error if there is none. */
  function FromChars(s: seq<char>): Option<nat> {
    if s == [] || !IsDigit(s[0]) then None else Some(Accumulate(0, s))
  }

  function Accumulate(n: nat, s: seq<char>): nat
    decreases |s|
  {
    if s == [] || !IsDigit(s[0]) then n else Accumulate(10 * n + DigitValue(s[0]), s[1..])
  }

  lemma DigitRoundTrip(d: nat)
    requires d < 10
    ensures DigitValue(Digit(d)) == d
  {
  }

  lemma AccumulateDigit(n: nat, d: nat, rest: seq<char>)
    requires d < 10
    ensures Accumulate(n, [Digit(d)] + rest) == Accumulate(10 * n + d, rest)
  {
    DigitRoundTrip(d);
    assert ([Digit(d)] + rest)[1..] == rest;
  }

  lemma FourDigitsOf(n: nat)
    requires n < 10000
    ensures n == 10 * (10 * (10 * (n / 1000) + n / 100 % 10) + n / 10 % 10) + n % 10
    ensures n / 1000 < 10
  {
  }

  /** The length written into a header is the length read from it. */
  lemma HeaderRoundTrip(n: nat)
    requires n < 10000
    ensures FromChars(FourDigits(n)) == Some(n)
  {
    FourDigitsOf(n);
    var a, b, c, d := n / 1000, n / 100 % 10, n / 10 % 10, n % 10;
    AccumulateDigit(0, a, [Digit(b), Digit(c), Digit(d)]);
    AccumulateDigit(a, b, [Digit(c), Digit(d)]);
    AccumulateDigit(10 * a + b, c, [Digit(d)]);
    AccumulateDigit(10 * (10 * a + b) + c, d, []);
    assert [Digit(a)] + [Digit(b), Digit(c), Digit(d)] == FourDigits(n);
    assert [Digit(b)] + [Digit(c), Digit(d)] == [Digit(b), Digit(c), Digit(d)];
    assert [Digit(c)] + [Digit(d)] == [Digit(c), Digit(d)];
    assert [Digit(d)] + [] == [Digit(d)];
  }

  // ----- the stream -----

  function Frame(body: Body): seq<char> {
    FourDigits(|body|) + body
  }

  function Frames(bodies: seq<Body>): seq<char> {
    if bodies == [] then [] else Frame(bodies[0]) + Frames(bodies[1..])
  }

  /** What a reader has got out of a stream: the bodies, the bytes it still waits on, and whether a header was bad. */
  datatype Reading = Reading(bodies: seq<seq<char>>, pending: seq<char>, failed: bool)

  /** Read four bytes, decode the length, read that many bytes, start over. */
  function Read(bytes: seq<char>): Reading
    decreases |bytes|
  {
    if |bytes| < HEADER_LENGTH then Reading([], bytes, false)
    else
      match FromChars(bytes[..HEADER_LENGTH])
      case None => Reading([], bytes, true)
      case Some(n) =>
        if |bytes| < HEADER_LENGTH + n then Reading([], bytes, false)
        else
          var rest := Read(bytes[HEADER_LENGTH + n..]);
          rest.(bodies := [bytes[HEADER_LENGTH..HEADER_LENGTH + n]] + rest.bodies)
  }

  /** How many frames lie completely within the first `n` bytes. */
  function Complete(bodies: seq<Body>, n: nat): (k: nat)
    ensures k <= |bodies|
  {
    if bodies == [] || n < |Frame(bodies[0])| then 0 else 1 + Complete(bodies[1..], n - |Frame(bodies[0])|)
  }

  lemma ReadFrame(body: Body, rest: seq<char>)
    ensures Read(Frame(body) + rest) == Read(rest).(bodies := [body] + Read(rest).bodies)
  {
    var bytes := Frame(body) + rest;
    HeaderRoundTrip(|body|);
    assert bytes[..HEADER_LENGTH] == FourDigits(|body|);
    assert bytes[HEADER_LENGTH..HEADER_LENGTH + |body|] == body;
    assert bytes[HEADER_LENGTH + |body|..] == rest;
  }

  lemma ReadPartialFrame(body: Body, n: nat)
    requires n < |Frame(body)|
    ensures Read(Frame(body)[..n]) == Reading([], Frame(body)[..n], false)
  {
    HeaderRoundTrip(|body|);
    if n >= HEADER_LENGTH {
      assert Frame(body)[..n][..HEADER_LENGTH] == FourDigits(|body|);
    }
  }

  /** What `ReadsCompleteFrames` says of one prefix. */
  ghost predicate ReadsWell(bodies: seq<Body>, n: nat)
    requires n <= |Frames(bodies)|
  {
    var r, k := Read(Frames(bodies)[..n]), Complete(bodies, n);
    r.bodies == bodies[..k] && !r.failed && Frames(bodies)[..n] == Frames(bodies[..k]) + r.pending
  }

  lemma FramesCons(body: Body, rest: seq<Body>)
    ensures Frames([body] + rest) == Frame(body) + Frames(rest)
  {
    assert ([body] + rest)[1..] == rest;
  }

  lemma CompleteCons(body: Body, rest: seq<Body>, n: nat)
    ensures Complete([body] + rest, |Frame(body)| + n) == 1 + Complete(rest, n)
    ensures n < |Frame(body)| ==> Complete([body] + rest, n) == 0
  {
    assert ([body] + rest)[1..] == rest;
  }

  lemma PrefixOfConcat(a: seq<char>, b: seq<char>, n: nat)
    requires n <= |b|
    ensures (a + b)[..|a| + n] == a + b[..n]
  {
  }

  lemma Associative(a: seq<char>, b: seq<char>, c: seq<char>)
    ensures a + (b + c) == (a + b) + c
  {
  }

  lemma PrefixOfFrames(body: Body, rest: seq<Body>, n: nat)
    requires n <= |Frames(rest)|
    ensures |Frame(body)| + n <= |Frames([body] + rest)|
    ensures Frames([body] + rest)[..|Frame(body)| + n] == Frame(body) + Frames(rest)[..n]
  {
    FramesCons(body, rest);
    PrefixOfConcat(Frame(body), Frames(rest), n);
  }

  lemma FramesOfPrefix(body: Body, rest: seq<Body>, k: nat)
    requires k <= |rest|
    ensures ([body] + rest)[..1 + k] == [body] + rest[..k]
    ensures Frames(([body] + rest)[..1 + k]) == Frame(body) + Frames(rest[..k])
  {
    assert ([body] + rest)[..1 + k] == [body] + rest[..k];
    FramesCons(body, rest[..k]);
  }

  lemma ReadsOneMore(body: Body, rest: seq<Body>, n: nat)
    requires n <= |Frames(rest)| && ReadsWell(rest, n)
    ensures |Frame(body)| + n <= |Frames([body] + rest)| && ReadsWell([body] + rest, |Frame(body)| + n)
  {
    var front, k := Frames(rest)[..n], Complete(rest, n);
    PrefixOfFrames(body, rest, n);
    CompleteCons(body, rest, n);
    ReadFrame(body, front);
    FramesOfPrefix(body, rest, k);
    Associative(Frame(body), Frames(rest[..k]), Read(front).pending);
  }

  lemma ReadsNoneYet(body: Body, rest: seq<Body>, n: nat)
    requires n < |Frame(body)|
    ensures n <= |Frames([body] + rest)| && ReadsWell([body] + rest, n)
  {
    FramesCons(body, rest);
    CompleteCons(body, rest, n);
    assert (Frame(body) + Frames(rest))[..n] == Frame(body)[..n];
    ReadPartialFrame(body, n);
    assert ([body] + rest)[..0] == [];
    assert [] + Frame(body)[..n] == Frame(body)[..n];
  }

  /** Of any prefix of the stream, exactly the complete frames are read, in order, and no header is bad. */
  lemma {:induction false} ReadsCompleteFrames(bodies: seq<Body>, n: nat)
    requires n <= |Frames(bodies)|
    ensures ReadsWell(bodies, n)
    decreases |bodies|
  {
    if bodies != [] {
      var body, rest := bodies[0], bodies[1..];
      assert bodies == [body] + rest;
      FramesCons(body, rest);
      if n >= |Frame(body)| {
        ReadsCompleteFrames(rest, n - |Frame(body)|);
        ReadsOneMore(body, rest, n - |Frame(body)|);
      } else {
        ReadsNoneYet(body, rest, n);
      }
    }
  }

  lemma {:induction false} CompleteAll(bodies: seq<Body>)
    ensures Complete(bodies, |Frames(bodies)|) == |bodies|
  {
    if bodies != [] {
      CompleteAll(bodies[1..]);
    }
  }

  /** The whole stream gives back exactly the messages that were framed. */
  lemma ReadInvertsFrames(bodies: seq<Body>)
    ensures Read(Frames(bodies)) == Reading(bodies, [], false)
  {
    ReadsCompleteFrames(bodies, |Frames(bodies)|);
    CompleteAll(bodies);
    assert Frames(bodies)[..|Frames(bodies)|] == Frames(bodies);
    assert bodies[..|bodies|] == bodies;
    assert |Read(Frames(bodies)).pending| == 0;
  }

  // ----- the object -----

  /** One buffer for header and body, as in the source. */
  class Message {
    const data: array<char>
    var bodyLength: nat

    constructor ()
      ensures fresh(data) && Good() && bodyLength == 0
    {
      data := new char[HEADER_LENGTH + MAX_BODY_LENGTH](_ => '\0');
      bodyLength := 0;
    }

    ghost predicate Good()
      reads this
    {
      data.Length == HEADER_LENGTH + MAX_BODY_LENGTH && bodyLength <= MAX_BODY_LENGTH
    }

    /** The bytes that are written to the socket. */
    ghost function Wire(): seq<char>
      requires Good()
      reads this, data
    {
      data[..HEADER_LENGTH + bodyLength]
    }

    method SetBody(body: Body)
      requires Good()
      modifies this, data
      ensures Good() && bodyLength == |body| && data[HEADER_LENGTH..HEADER_LENGTH + |body|] == body
    {
      bodyLength := |body|;
      for i := 0 to |body|
        invariant bodyLength == |body| && forall j :: 0 <= j < i ==> data[HEADER_LENGTH + j] == body[j]
      {
        data[HEADER_LENGTH + i] := body[i];
      }
    }

    /** Writes the header in front of the body, which stays as it is. */
    method EncodeHeader()
      requires Good()
      modifies data
      ensures data[..HEADER_LENGTH] == FourDigits(bodyLength)
      ensures data[HEADER_LENGTH..] == old(data[HEADER_LENGTH..])
      ensures Wire() == Frame(old(data[HEADER_LENGTH..HEADER_LENGTH + bodyLength]))
    {
      var header := FourDigits(bodyLength);
      ghost var body := data[HEADER_LENGTH..];
      data[0], data[1], data[2], data[3] := header[0], header[1], header[2], header[3];
      assert data[HEADER_LENGTH..] == body;
      assert Wire() == header + body[..bodyLength];
    }

    /** Sets the body length from the header; a bad header leaves it 0 and is reported. */
    method DecodeHeader() returns (ok: bool)
      requires data.Length == HEADER_LENGTH + MAX_BODY_LENGTH
      modifies this
      ensures match FromChars(data[..HEADER_LENGTH])
              case None => !ok && bodyLength == 0
              case Some(n) => ok && bodyLength == n
    {
      var n := FromChars(data[..HEADER_LENGTH]);
      ok := n.Some?;
      bodyLength := if ok then n.value else 0;
    }
  }
}
