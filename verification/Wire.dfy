/** Packets, message buffers and the packet arithmetic shared by both endpoints
    of a session. */
module Wire {

  datatype Option<+T> = None | Some(value: T)

  type byte = b: int | 0 <= b < 256
  type pos = n: nat | 0 < n witness 1

  /** The packet number is a 14-bit field of the packet header. */
  const PKT_NUM_LIMIT: pos := 0x4000

  /** Parameters of the datapath: the request window of a session, its packet credits, the
      data bytes of one packet, the message size limit, and the request types whose
      handlers are registered to run in background threads. */
  datatype Params = Params(window: pos, credits: pos, dataPerPkt: pos, maxMsgSize: nat, background: set<nat>) {
    predicate Valid() {
      2 * maxMsgSize < PKT_NUM_LIMIT * dataPerPkt
    }
  }

  type Config = p: Params | p.Valid() witness Params(8, 32, 1008, 8255456, {})

  /** The slot that a request number belongs to. */
  function SlotOf(p: Config, reqNum: nat): (i: nat)
    ensures i < p.window
  {
    reqNum % p.window
  }

  // ---------------------------------------------------------------------------
  // Packet arithmetic
  // ---------------------------------------------------------------------------

  function Min(a: nat, b: nat): nat {
    if a < b then a else b
  }

  /** Number of packets for `size` data bytes; an empty message takes one packet. */
  function NumPkts(k: pos, size: nat): (n: pos) {
    if size <= k then 1 else DivUp(k, size)
  }

  function DivUp(k: pos, size: nat): (n: pos)
    requires k < size
    ensures n > 1
    ensures (n - 1) * k < size <= n * k
  {
    var q := (size + k - 1) / k;
    assert size + k - 1 == q * k + (size + k - 1) % k;
    MulCancel(1, q, k);
    assert (q - 1) * k == q * k - k;
    q
  }

  lemma MulMono(a: int, b: int, k: nat)
    requires a <= b
    ensures a * k <= b * k
  {
    assert (b - a) * k >= 0;
    assert (b - a) * k == b * k - a * k;
  }

  lemma MulCancel(a: int, b: int, k: nat)
    requires a * k < b * k
    ensures a < b
  {
    if b <= a {
      MulMono(b, a, k);
    }
  }

  /** Bytes of a message that its first `n` packets carry. */
  function Arrived(k: pos, size: nat, n: nat): nat {
    Min(n * k, size)
  }

  lemma NumPktsBounds(k: pos, size: nat, i: nat)
    requires i < NumPkts(k, size)
    ensures i * k <= size
    ensures i + 1 == NumPkts(k, size) ==> size <= (i + 1) * k
    ensures i + 1 < NumPkts(k, size) ==> (i + 1) * k < size
    ensures Arrived(k, size, NumPkts(k, size)) == size
  {
    if size > k {
      var n := DivUp(k, size);
      MulMono(i, n - 1, k);
      if i + 1 < n {
        MulMono(i + 1, n - 1, k);
      }
    }
  }

  /** The data bytes of packet `idx` of a message. */
  function Chunk(k: pos, data: seq<byte>, idx: nat): seq<byte>
    requires idx < NumPkts(k, |data|)
  {
    NumPktsBounds(k, |data|, idx);
    data[idx * k .. Min((idx + 1) * k, |data|)]
  }

  /** A response packet's index in its message, from its wire packet number. */
  function RespNtoi(pktNum: nat, numReqPkts: nat): nat
    requires numReqPkts <= pktNum + 1
  {
    pktNum - (numReqPkts - 1)
  }

  function WirePkts(numReqPkts: pos, numRespPkts: nat): nat {
    numReqPkts + numRespPkts - 1
  }

  /** For messages within the size limit every wire packet number fits its header field. */
  lemma PktNumsFit(p: Config, reqSize: nat, respSize: nat)
    requires reqSize <= p.maxMsgSize && respSize <= p.maxMsgSize
    ensures WirePkts(NumPkts(p.dataPerPkt, reqSize), NumPkts(p.dataPerPkt, respSize)) <= PKT_NUM_LIMIT
  {
    var k := p.dataPerPkt;
    var n: nat, m: nat := NumPkts(k, reqSize), NumPkts(k, respSize);
    NumPktsBounds(k, reqSize, n - 1);
    NumPktsBounds(k, respSize, m - 1);
    assert (n + m - 2) * k == (n - 1) * k + (m - 1) * k;
    MulCancel(n + m - 2, PKT_NUM_LIMIT, k);
  }

  // ---------------------------------------------------------------------------
  // Packets and buffers
  // ---------------------------------------------------------------------------

  datatype PktKind = Req | Rfr | ExplCr | Resp

  datatype Pkt = Pkt(kind: PktKind, reqType: nat, reqNum: nat, pktNum: nat, msgSize: nat, data: seq<byte>)

  function PktNumField(n: nat): nat {
    n % PKT_NUM_LIMIT
  }

  /** A message buffer: its memory (as long as its allocation), its current size, and
      the request type and number stored in its zeroth packet header. */
  datatype MsgBuf = MsgBuf(mem: seq<byte>, dataSize: nat, numPkts: nat, hdrType: nat, hdrReqNum: nat) {
    function Contents(): seq<byte>
      requires dataSize <= |mem|
    {
      mem[..dataSize]
    }
  }

  const EmptyBuf := MsgBuf([], 0, 0, 0, 0)

  function Resize(k: pos, b: MsgBuf, size: nat): MsgBuf
    requires size <= |b.mem|
  {
    b.(dataSize := size, numPkts := NumPkts(k, size))
  }

  predicate CopyOk(k: pos, b: MsgBuf, idx: nat, pkt: Pkt) {
    && idx * k <= pkt.msgSize
    && var n := Min(k, pkt.msgSize - idx * k);
       idx * k + n <= |b.mem| && n <= |pkt.data|
  }

  /** Copy a packet's data to its place in the buffer. */
  function CopyData(k: pos, b: MsgBuf, idx: nat, pkt: Pkt): MsgBuf
    requires CopyOk(k, b, idx, pkt)
  {
    var off, n := idx * k, Min(k, pkt.msgSize - idx * k);
    b.(mem := b.mem[..off] + pkt.data[..n] + b.mem[off + n..])
  }

  lemma CopyFrame(k: pos, b: MsgBuf, idx: nat, pkt: Pkt)
    requires CopyOk(k, b, idx, pkt)
    ensures CopyData(k, b, idx, pkt) == b.(mem := CopyData(k, b, idx, pkt).mem)
    ensures |CopyData(k, b, idx, pkt).mem| == |b.mem|
  {
  }

  /** The first `n` packets of `data` are in place in the buffer. */
  ghost predicate HasPrefix(k: pos, b: MsgBuf, data: seq<byte>, n: nat) {
    && |data| <= |b.mem|
    && b.mem[..Arrived(k, |data|, n)] == data[..Arrived(k, |data|, n)]
  }

  /** Copying the next packet in order extends the correct prefix by that packet. */
  lemma CopyExtends(k: pos, b: MsgBuf, data: seq<byte>, idx: nat, pkt: Pkt)
    requires idx < NumPkts(k, |data|)
    requires HasPrefix(k, b, data, idx)
    requires pkt.msgSize == |data| && pkt.data == Chunk(k, data, idx)
    ensures CopyOk(k, b, idx, pkt)
    ensures HasPrefix(k, CopyData(k, b, idx, pkt), data, idx + 1)
    ensures |CopyData(k, b, idx, pkt).mem| == |b.mem|
    ensures idx + 1 == NumPkts(k, |data|) ==> CopyData(k, b, idx, pkt).mem[..|data|] == data
  {
    NumPktsBounds(k, |data|, idx);
    var off := idx * k;
    assert (idx + 1) * k == off + k;
    var end := Min(off + k, |data|);
    var mem := CopyData(k, b, idx, pkt).mem;
    assert mem[..end] == data[..off] + data[off..end];
    assert data[..off] + data[off..end] == data[..end];
    if idx + 1 == NumPkts(k, |data|) {
      assert data[..|data|] == data;
    }
  }
}
