/** Byte streams that arrive in pieces. */
module ByteStreams {
  type Byte = x: int | 0 <= x < 256

  type Bytes = seq<Byte>

  /** How an io.Reader answers one Read: with at most `n` bytes, with at most `n` bytes and io.EOF,
      or with another error. */
  datatype Grant = Data(n: nat) | Eof(n: nat) | Broken

  datatype ReadError = NoError | EndOfFile | Failure

  /** What a reader still has to deliver, and how it will answer.  Once `script` is used up every
      Read fails, as on a closed pipe. */
  datatype Input = Input(data: Bytes, script: seq<Grant>)

  datatype Chunk = Chunk(bytes: Bytes, err: ReadError, rest: Input)

  function Min(a: nat, b: nat): nat { if a < b then a else b }

  /** Read into a buffer of `limit` bytes. */
  function ReadChunk(i: Input, limit: nat): (c: Chunk)
    ensures c.bytes + c.rest.data == i.data && |c.bytes| <= limit
    ensures c.err != Failure ==> |c.rest.script| < |i.script|
    ensures |c.rest.script| <= |i.script|
  {
    if i.script == [] then Chunk([], Failure, i)
    else match i.script[0]
      case Broken => Chunk([], Failure, Input(i.data, i.script[1..]))
      case Data(n) =>
        var k := Min(n, Min(limit, |i.data|)); Chunk(i.data[..k], NoError, Input(i.data[k..], i.script[1..]))
      case Eof(n) =>
        var k := Min(n, Min(limit, |i.data|)); Chunk(i.data[..k], EndOfFile, Input(i.data[k..], i.script[1..]))
  }

  class ByteReader {
    var data: Bytes
    var script: seq<Grant>

    function State(): Input reads this { Input(data, script) }

    constructor (data: Bytes, script: seq<Grant>)
      ensures State() == Input(data, script)
    {
      this.data, this.script := data, script;
    }

    method Read(limit: nat) returns (bytes: Bytes, err: ReadError)
      modifies this
      ensures Chunk(bytes, err, State()) == ReadChunk(old(State()), limit)
    {
      if script == [] {
        return [], Failure;
      }
      var grant := script[0];
      script := script[1..];
      if grant.Broken? {
        return [], Failure;
      }
      var k := Min(grant.n, Min(limit, |data|));
      bytes := data[..k];
      data := data[k..];
      err := if grant.Data? then NoError else EndOfFile;
    }
  }

  /** A bytes.Buffer. */
  class ByteBuffer {
    var content: Bytes

    constructor ()
      ensures content == []
    {
      content := [];
    }
  }
}
