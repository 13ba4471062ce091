/** Bytes, 16-bit words and the message header that every transport carries. */
module Messages {

  type Byte = b: int | 0 <= b < 0x100
  type Bytes = seq<Byte>

  /** `uint16_t`: process identifiers and content lengths. */
  type U16 = n: int | 0 <= n < 0x1_0000

  /** What `ipc_send` can be given: its length parameter is a `uint16_t`. */
  type Content = b: Bytes | |b| < 0x1_0000

  /** `message_t`: the two header fields and the bytes that follow them. */
  datatype Message = Message(sender: U16, length: U16, content: Bytes)

  function Letter(sender: U16, content: Content): Message {
    Message(sender, |content|, content)
  }

  /** The two bytes of a `uint16_t` in memory, low byte first. */
  function PutU16(n: U16): (b: Bytes)
    ensures |b| == 2
  {
    [n % 0x100, n / 0x100]
  }

  function GetU16(b: Bytes): U16
    requires |b| == 2
  {
    var low: int, high: int := b[0], b[1];
    low + 0x100 * high
  }

  lemma U16RoundTrip(n: U16)
    ensures GetU16(PutU16(n)) == n
  {
  }

  lemma Regroup<T>(a: seq<T>, b: seq<T>, c: seq<T>)
    ensures a + b + c == a + (b + c)
  {
  }

  lemma Parts<T>(a: seq<T>, b: seq<T>, c: seq<T>)
    ensures (a + b + c)[..|a|] == a && (a + b + c)[|a|..|a| + |b|] == b && (a + b + c)[|a| + |b|..] == c
  {
  }
}
