/** Conversions between queue, bucket and connection indices.  `None` stands for the panics of the
    original: a failed assertion, a division by zero, or 32-bit arithmetic out of range. */
module Index {
  import opened Options
  import opened Words

  const U32_LIMIT: nat := 0x1_0000_0000
  const MAX_BUCKETS: nat := 1000

  datatype IoResources = IoResources(tcpStreams: nat, httpConnections: nat) {
    function PerBucket(): nat { tcpStreams + httpConnections }

    /** At least the input stream, and one bit of a 64-bit job mask for each task. */
    predicate Supported() { 1 <= tcpStreams && PerBucket() <= 64 }
  }

  datatype BucketIndex = BucketIndex(identifier: nat, index: nat)
  datatype ConnectionIndex = ConnectionIndex(identifier: nat, index: nat)
  datatype QueueIndex = QueueIndex(identifier: nat, index: nat)
  datatype IoIndex = InputStream(bucket: BucketIndex) | HttpConnection(connection: ConnectionIndex)

  function Checked(x: int): Option<nat> {
    if 0 <= x < U32_LIMIT then Some(x) else None
  }

  function ToBucketIndex(q: QueueIndex, r: IoResources): Option<BucketIndex> {
    if r.PerBucket() == 0 then None
    else
      var index := Quotient(q.index, r.PerBucket());
      if index < MAX_BUCKETS then Some(BucketIndex(q.identifier, index)) else None
  }

  function ToConnectionIndex(q: QueueIndex, r: IoResources): Option<ConnectionIndex> {
    if r.PerBucket() == 0 || Remainder(q.index, r.PerBucket()) < r.tcpStreams then None
    else
      var bucket := Quotient(q.index, r.PerBucket());
      var connection := Remainder(q.index, r.PerBucket()) - r.tcpStreams;
      match Checked(bucket * r.httpConnections + connection)
      case None => None
      case Some(index) => Some(ConnectionIndex(q.identifier, index))
  }

  function FromBucketIndex(r: IoResources, b: BucketIndex): Option<QueueIndex> {
    match Checked(b.index * r.PerBucket())
    case None => None
    case Some(index) => Some(QueueIndex(b.identifier, index))
  }

  function FromConnectionIndex(r: IoResources, c: ConnectionIndex): Option<QueueIndex> {
    if r.httpConnections == 0 then None
    else
      var bucket := Quotient(c.index, r.httpConnections);
      var connection := Remainder(c.index, r.httpConnections);
      match Checked(bucket * r.PerBucket() + r.tcpStreams + connection)
      case None => None
      case Some(index) => Some(QueueIndex(c.identifier, index))
  }

  function FromIndex(r: IoResources, q: QueueIndex): Option<IoIndex> {
    if r.PerBucket() == 0 then None
    else
      var n := Remainder(q.index, r.PerBucket());
      if n == 0 then
        match ToBucketIndex(q, r)
        case None => None
        case Some(b) => Some(InputStream(b))
      else if 1 <= n < r.tcpStreams then None
      else if r.tcpStreams <= n < r.tcpStreams + r.httpConnections then
        match ToConnectionIndex(q, r)
        case None => None
        case Some(c) => Some(HttpConnection(c))
      else None
  }

  /** The connections of a bucket: a half-open range of the global connection table. */
  predicate InHttpConnections(r: IoResources, bucket: nat, c: nat) {
    var start := bucket * r.httpConnections;
    start <= c < start + r.httpConnections
  }

  /** The queue index `run_bucket` builds for an offset it took from a bucket's mask. */
  function QueueIndexAt(r: IoResources, bucket: nat, offset: nat): QueueIndex {
    QueueIndex(0, bucket * r.PerBucket() + offset)
  }

  // ----- The conversions undo each other -----

  lemma SplitIndex(bucket: nat, width: nat, offset: nat)
    requires offset < width
    ensures Quotient(bucket * width + offset, width) == bucket
    ensures Remainder(bucket * width + offset, width) == offset
  {
    UniqueRemainder(bucket * width + offset, width, bucket, offset);
  }

  lemma JoinIndex(x: nat, width: nat)
    requires width > 0
    ensures Quotient(x, width) * width + Remainder(x, width) == x
  {
    Division(x, width);
  }

  lemma ProductLimit(bucket: nat, width: nat, offset: nat)
    requires bucket < MAX_BUCKETS && width <= 64 && offset < width
    ensures bucket * width + offset < U32_LIMIT
  {
    ProductMonotone(bucket, MAX_BUCKETS, width);
  }

  /** A bucket's queue index leads back to the bucket, and to its main task. */
  lemma BucketRoundTrip(r: IoResources, b: BucketIndex)
    requires r.Supported() && b.index < MAX_BUCKETS
    ensures var q := FromBucketIndex(r, b);
            && q.Some? && Remainder(q.value.index, r.PerBucket()) == 0
            && ToBucketIndex(q.value, r) == Some(b)
            && FromIndex(r, q.value) == Some(InputStream(b))
  {
    ProductLimit(b.index, r.PerBucket(), 0);
    SplitIndex(b.index, r.PerBucket(), 0);
  }

  /** A connection's queue index leads back to the connection and to the bucket that owns it. */
  lemma ConnectionRoundTrip(r: IoResources, c: ConnectionIndex)
    requires r.Supported() && r.httpConnections >= 1 && Quotient(c.index, r.httpConnections) < MAX_BUCKETS
    ensures var q := FromConnectionIndex(r, c);
            && q.Some? && r.tcpStreams <= Remainder(q.value.index, r.PerBucket())
            && ToConnectionIndex(q.value, r) == Some(c)
            && ToBucketIndex(q.value, r) == Some(BucketIndex(c.identifier, Quotient(c.index, r.httpConnections)))
            && FromIndex(r, q.value) == Some(HttpConnection(c))
  {
    var bucket, k := Quotient(c.index, r.httpConnections), Remainder(c.index, r.httpConnections);
    JoinIndex(c.index, r.httpConnections);
    ConnectionAt(r, bucket, k);
    SplitIndex(bucket, r.PerBucket(), r.tcpStreams + k);
  }

  /** Both ways of counting the k-th connection of a bucket stay within 32 bits. */
  lemma ConnectionAt(r: IoResources, bucket: nat, k: nat)
    requires r.Supported() && bucket < MAX_BUCKETS && k < r.httpConnections
    ensures bucket * r.PerBucket() + r.tcpStreams + k < U32_LIMIT
    ensures bucket * r.httpConnections + k < U32_LIMIT
  {
    ProductLimit(bucket, r.PerBucket(), r.tcpStreams + k);
    ProductLimit(bucket, r.httpConnections, k);
  }

  /** A queue index at a connection offset is the one its connection index leads back to. */
  lemma QueueRoundTrip(r: IoResources, q: QueueIndex)
    requires r.Supported() && Quotient(q.index, r.PerBucket()) < MAX_BUCKETS
    requires r.tcpStreams <= Remainder(q.index, r.PerBucket())
    ensures var c := ToConnectionIndex(q, r);
            c.Some? && FromConnectionIndex(r, c.value) == Some(q)
  {
    var bucket, k := Quotient(q.index, r.PerBucket()), Remainder(q.index, r.PerBucket()) - r.tcpStreams;
    ConnectionAt(r, bucket, k);
    SplitIndex(bucket, r.httpConnections, k);
    JoinIndex(q.index, r.PerBucket());
  }

  /** Dispatch has an answer exactly for offset 0 and for connection offsets. */
  lemma DispatchDefined(r: IoResources, bucket: nat, offset: nat)
    requires r.Supported() && bucket < MAX_BUCKETS && offset < r.PerBucket()
    ensures FromIndex(r, QueueIndexAt(r, bucket, offset)).Some? <==> offset == 0 || r.tcpStreams <= offset
  {
    SplitIndex(bucket, r.PerBucket(), offset);
    if r.tcpStreams <= offset {
      QueueRoundTrip(r, QueueIndexAt(r, bucket, offset));
    }
  }

  /** Each connection belongs to exactly one bucket: the one its queue index maps back to. */
  lemma ConnectionsPartition(r: IoResources, bucket: nat, c: ConnectionIndex)
    requires r.Supported() && r.httpConnections >= 1 && Quotient(c.index, r.httpConnections) < MAX_BUCKETS
    ensures FromConnectionIndex(r, c).Some?
    ensures InHttpConnections(r, bucket, c.index)
       <==> ToBucketIndex(FromConnectionIndex(r, c).value, r) == Some(BucketIndex(c.identifier, bucket))
  {
    ConnectionRoundTrip(r, c);
    RangeIsQuotient(r, bucket, c.index);
  }

  lemma RangeIsQuotient(r: IoResources, bucket: nat, c: nat)
    requires r.httpConnections >= 1
    ensures InHttpConnections(r, bucket, c) <==> Quotient(c, r.httpConnections) == bucket
  {
    var h := r.httpConnections;
    JoinIndex(c, h);
    if InHttpConnections(r, bucket, c) {
      UniqueRemainder(c, h, bucket, c - bucket * h);
    }
  }

  /** Every queue index of the first thousand buckets has its bucket, and no other has one. */
  lemma BucketsThatAnswer(r: IoResources, q: QueueIndex)
    requires r.PerBucket() > 0
    ensures ToBucketIndex(q, r).Some? <==> q.index < 1000 * r.PerBucket()
    ensures ToBucketIndex(q, r).Some? ==>
              ToBucketIndex(q, r) == Some(BucketIndex(q.identifier, Quotient(q.index, r.PerBucket())))
  {
    JoinIndex(q.index, r.PerBucket());
    var bucket := Quotient(q.index, r.PerBucket());
    if bucket < 1000 {
      ProductMonotone(bucket + 1, 1000, r.PerBucket());
    } else {
      ProductMonotone(1000, bucket, r.PerBucket());
    }
  }

  /** What is supported: at least one stream, and at most as many tasks in a bucket as a word has bits. */
  lemma SupportedResources(r: IoResources)
    ensures r.Supported() <==> 1 <= r.tcpStreams && r.tcpStreams + r.httpConnections <= 64
  {
  }

  // ----- Packing an index into a machine word -----

  function ToBytes(x: nat, n: nat): (bytes: seq<nat>)
    ensures |bytes| == n && forall k :: 0 <= k < n ==> bytes[k] < 256
  {
    if n == 0 then [] else [x % 256] + ToBytes(x / 256, n - 1)
  }

  function FromBytes(bytes: seq<nat>): nat {
    if |bytes| == 0 then 0 else bytes[0] + 256 * FromBytes(bytes[1..])
  }

  function Limit(n: nat): nat {
    if n == 0 then 1 else 256 * Limit(n - 1)
  }

  function ToUsize(q: QueueIndex): nat {
    FromBytes(ToBytes(q.index, 4) + ToBytes(q.identifier, 4))
  }

  function FromUsize(word: nat): QueueIndex {
    var bytes := ToBytes(word, 8);
    QueueIndex(FromBytes(bytes[4..]), FromBytes(bytes[..4]))
  }

  lemma {:induction false} BytesRoundTrip(x: nat, n: nat)
    requires x < Limit(n)
    ensures FromBytes(ToBytes(x, n)) == x
  {
    if n > 0 {
      BytesRoundTrip(x / 256, n - 1);
      assert ToBytes(x, n)[1..] == ToBytes(x / 256, n - 1);
    }
  }

  lemma {:induction false} WordRoundTrip(bytes: seq<nat>)
    requires forall k :: 0 <= k < |bytes| ==> bytes[k] < 256
    ensures ToBytes(FromBytes(bytes), |bytes|) == bytes && FromBytes(bytes) < Limit(|bytes|)
  {
    if |bytes| > 0 {
      var rest := bytes[1..];
      WordRoundTrip(rest);
      assert FromBytes(bytes) / 256 == FromBytes(rest) && FromBytes(bytes) % 256 == bytes[0];
      assert [bytes[0]] + rest == bytes;
    }
  }

  /** The index is in the low half of the word, the identifier in the high half. */
  lemma WordLayout(q: QueueIndex)
    requires q.index < 0x1_0000_0000 && q.identifier < 0x1_0000_0000
    ensures ToUsize(q) == q.index + 0x1_0000_0000 * q.identifier
  {
    LimitOfBytes();
    var low, high := ToBytes(q.index, 4), ToBytes(q.identifier, 4);
    BytesRoundTrip(q.index, 4);
    BytesRoundTrip(q.identifier, 4);
    BytesJoin(low, high);
  }

  lemma LimitOfBytes()
    ensures Limit(4) == 0x1_0000_0000 == U32_LIMIT
  {
    assert Limit(2) == 0x1_0000;
  }

  lemma {:induction false} BytesJoin(low: seq<nat>, high: seq<nat>)
    ensures FromBytes(low + high) == FromBytes(low) + Limit(|low|) * FromBytes(high)
  {
    if |low| == 0 {
      assert low + high == high;
    } else {
      assert (low + high)[1..] == low[1..] + high;
      BytesJoin(low[1..], high);
      assert 256 * (Limit(|low| - 1) * FromBytes(high)) == Limit(|low|) * FromBytes(high);
    }
  }

  /** Tokens and raw wakers carry a queue index through a word without loss, both ways. */
  lemma TokenRoundTrip(q: QueueIndex, word: nat)
    requires q.index < Limit(4) && q.identifier < Limit(4) && word < Limit(8)
    ensures ToUsize(q) < Limit(8) && FromUsize(ToUsize(q)) == q
    ensures ToUsize(FromUsize(word)) == word
  {
    IndexRoundTrip(q);
    WordUnpacks(word);
  }

  lemma IndexRoundTrip(q: QueueIndex)
    requires q.index < Limit(4) && q.identifier < Limit(4)
    ensures ToUsize(q) < Limit(8) && FromUsize(ToUsize(q)) == q
  {
    var low, high := ToBytes(q.index, 4), ToBytes(q.identifier, 4);
    WordRoundTrip(low + high);
    BytesRoundTrip(q.index, 4);
    BytesRoundTrip(q.identifier, 4);
    assert (low + high)[..4] == low && (low + high)[4..] == high;
  }

  lemma WordUnpacks(word: nat)
    requires word < Limit(8)
    ensures ToUsize(FromUsize(word)) == word
  {
    var wide := ToBytes(word, 8);
    WordRoundTrip(wide[..4]);
    WordRoundTrip(wide[4..]);
    assert wide[..4] + wide[4..] == wide;
    BytesRoundTrip(word, 8);
  }
}
