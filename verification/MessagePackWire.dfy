/** Messages all the way: written, framed, cut into reads, read back and parsed
    (messagepackhubprotocol.go). */
module MessagePackWire {
  import opened Messages
  import opened ByteStreams
  import opened MessagePackCodec
  import F = MessagePackFraming
  import R = FramingRoundTrip

  /** The body bytes of each message; `pack` is the byte encoding of tokens. */
  function Packed(ms: seq<HubMessage>, pack: seq<Token> -> Bytes): seq<Bytes> {
    seq(|ms|, i requires 0 <= i < |ms| => pack(Tokens(ms[i])))
  }

  /** Whatever the reads are, the frames of the calls so far parse to the first messages written, in
      order and in normal form; when nothing but zero bytes is left over, to all of them.  As for the
      frames, every length buffer must have been full or held whole frames, and no EOF may have come
      inside a body. */
  lemma MessagesComeBack(ms: seq<HubMessage>, pack: seq<Token> -> Bytes, unpack: Bytes -> seq<Token>,
                         script: seq<Grant>, max: nat, n: nat)
    requires forall ts :: unpack(pack(ts)) == ts
    requires R.Sendable(Packed(ms, pack), max)
    ensures var s := R.Calls(Input(F.Encode(Packed(ms, pack)), script), max, n);
            !s.torn && !s.cut ==>
            && |s.frames| <= |ms| && s.end in {F.Returned, F.ReaderError}
            && (forall i | 0 <= i < |s.frames| :: Parse(unpack(s.frames[i])) == Message(Normal(ms[i]), []))
            && (s.end == F.Returned && R.AllZero(s.remain + s.input.data) ==> |s.frames| == |ms|)
  {
    var s := R.Calls(Input(F.Encode(Packed(ms, pack)), script), max, n);
    R.FramesRoundTrip(Packed(ms, pack), script, max, n);
    if !s.torn && !s.cut {
      forall i | 0 <= i < |s.frames| ensures Parse(unpack(s.frames[i])) == Message(Normal(ms[i]), []) {
        assert s.frames[i] == Packed(ms, pack)[i] == pack(Tokens(ms[i]));
        MessageRoundTrip(ms[i]);
      }
    }
  }
}
