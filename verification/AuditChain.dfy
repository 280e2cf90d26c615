/**
 The audit hash chain: the bytes a row hash covers, the log that only Append and
 CreateCheckpoint grow, and the batched verifier with what it proves and what it
 leaves unproved about a log. The hash itself is a parameter.
 */
module AuditChain {
  import opened Options

  type Byte = x: int | 0 <= x < 256

  type Bytes = seq<Byte>

  /** The bytes of "fersaku.audit.v1" and of "JCS-1". */
  const DOMAIN_PREFIX: Bytes := [102, 101, 114, 115, 97, 107, 117, 46, 97, 117, 100, 105, 116, 46, 118, 49]
  const LAUNCH_VERSION: Bytes := [74, 67, 83, 45, 49]
  const OPEN_BRACE: Byte := 123
  const MAX_INT64: int := 0x7fff_ffff_ffff_ffff

  datatype Row = Row(seqNo: nat, prev: Bytes, hash: Bytes, version: Bytes, payload: Bytes)

  /** signed: the signature over this anchor verifies, or there is none. */
  datatype Checkpoint = Checkpoint(seqNo: int, headHash: Bytes, signed: bool)

  // ---------------------------------------------------------------------------
  // The bytes of a row hash
  // ---------------------------------------------------------------------------

  function BigEndian(n: nat, width: nat): (s: Bytes)
    ensures |s| == width
    decreases width
  {
    if width == 0 then [] else BigEndian(n / 256, width - 1) + [n % 256]
  }

  function Pow256(width: nat): (p: nat)
    ensures p > 0
  {
    if width == 0 then 1 else 256 * Pow256(width - 1)
  }

  lemma {:induction false} BigEndianIsInjective(n: nat, m: nat, width: nat)
    requires n < Pow256(width) && m < Pow256(width) && BigEndian(n, width) == BigEndian(m, width)
    ensures n == m
    decreases width
  {
    if width > 0 {
      var a, b := BigEndian(n / 256, width - 1), BigEndian(m / 256, width - 1);
      assert BigEndian(n, width)[..width - 1] == a && BigEndian(m, width)[..width - 1] == b;
      assert BigEndian(n, width)[width - 1] == n % 256 && BigEndian(m, width)[width - 1] == m % 256;
      BigEndianIsInjective(n / 256, m / 256, width - 1);
    }
  }

  function Zeros(n: nat): (s: Bytes)
    ensures |s| == n
  {
    if n == 0 then [] else [0] + Zeros(n - 1)
  }

  /** A previous hash of another length is cut or padded with zeros to 32 bytes. */
  function Pad32(h: Bytes): (p: Bytes)
    ensures |p| == 32
    ensures |h| == 32 ==> p == h
  {
    if |h| >= 32 then h[..32] else h + Zeros(32 - |h|)
  }

  function RowBytes(seqNo: nat, prev: Bytes, version: Bytes, payload: Bytes): Bytes {
    (DOMAIN_PREFIX + [0]) + (BigEndian(seqNo, 8) + (Pad32(prev) + (Sized(version, 4) + Sized(payload, 8))))
  }

  /** A field behind its length. */
  function Sized(field: Bytes, width: nat): Bytes {
    BigEndian(|field|, width) + field
  }

  /** What the columns and their constraints admit. */
  predicate Storable(r: Row) {
    && 0 < r.seqNo <= MAX_INT64 && |r.prev| == 32 && |r.hash| == 32
    && |r.version| < 0x1_0000_0000 && |r.payload| <= MAX_INT64
  }

  function Framed(r: Row): Bytes
    requires Storable(r)
  {
    RowBytes(r.seqNo, r.prev, r.version, r.payload)
  }

  lemma WidthsSuffice()
    ensures Pow256(4) == 0x1_0000_0000 && Pow256(8) == 0x1_0000_0000_0000_0000
  {
    assert Pow256(4) == 0x1_0000_0000;
    assert Pow256(8) == 256 * 256 * 256 * 256 * Pow256(4);
  }

  lemma SplitAt(x: Bytes, y: Bytes, u: Bytes, v: Bytes)
    requires |x| == |u| && x + y == u + v
    ensures x == u && y == v
  {
    assert x == (x + y)[..|x|] && u == (u + v)[..|u|];
    assert y == (x + y)[|x|..] && v == (u + v)[|u|..];
  }

  lemma SizedSplits(x: Bytes, y: Bytes, u: Bytes, v: Bytes, width: nat)
    requires |x| < Pow256(width) && |u| < Pow256(width)
    requires Sized(x, width) + y == Sized(u, width) + v
    ensures x == u && y == v
  {
    hide BigEndian, Pow256;
    assert Sized(x, width) + y == BigEndian(|x|, width) + (x + y);
    assert Sized(u, width) + v == BigEndian(|u|, width) + (u + v);
    SplitAt(BigEndian(|x|, width), x + y, BigEndian(|u|, width), u + v);
    BigEndianIsInjective(|x|, |u|, width);
    SplitAt(x, y, u, v);
  }

  /** The framing is unambiguous: no two rows are hashed from the same bytes unless they carry
      the same number, previous hash, version and payload. */
  lemma FramingIsInjective(r: Row, t: Row)
    requires Storable(r) && Storable(t) && Framed(r) == Framed(t)
    ensures r.seqNo == t.seqNo && r.prev == t.prev && r.version == t.version && r.payload == t.payload
  {
    WidthsSuffice();
    hide BigEndian, Pow256, Sized;
    var r2, t2 := Sized(r.version, 4) + Sized(r.payload, 8), Sized(t.version, 4) + Sized(t.payload, 8);
    SplitAt(DOMAIN_PREFIX + [0], BigEndian(r.seqNo, 8) + (r.prev + r2), DOMAIN_PREFIX + [0], BigEndian(t.seqNo, 8) + (t.prev + t2));
    SplitAt(BigEndian(r.seqNo, 8), r.prev + r2, BigEndian(t.seqNo, 8), t.prev + t2);
    BigEndianIsInjective(r.seqNo, t.seqNo, 8);
    SplitAt(r.prev, r2, t.prev, t2);
    SizedSplits(r.version, Sized(r.payload, 8), t.version, Sized(t.payload, 8), 4);
    assert Sized(r.payload, 8) + [] == Sized(r.payload, 8) && Sized(t.payload, 8) + [] == Sized(t.payload, 8);
    SizedSplits(r.payload, [], t.payload, [], 8);
  }

  /** The number that bytes spell, the most significant first. */
  function Spelled(s: Bytes): nat {
    if s == [] then 0 else Spelled(s[..|s| - 1]) * 256 + s[|s| - 1]
  }

  lemma {:induction false} BigEndianReadsBack(n: nat, width: nat)
    requires n < Pow256(width)
    ensures Spelled(BigEndian(n, width)) == n
    decreases width
  {
    if width > 0 {
      BigEndianReadsBack(n / 256, width - 1);
      assert BigEndian(n, width)[..width - 1] == BigEndian(n / 256, width - 1);
    }
  }

  /** The bytes spell this text. */
  predicate Ascii(s: Bytes, text: string) {
    |s| == |text| && forall i :: 0 <= i < |s| ==> s[i] == text[i] as int
  }

  lemma TextsOfTheChain()
    ensures Ascii(DOMAIN_PREFIX, "fersaku.audit.v1") && Ascii(LAUNCH_VERSION, "JCS-1") && OPEN_BRACE == '{' as int
  {
  }

  /** The hashed bytes can be read back: the domain and a zero, then number, previous hash, and version and payload each
      behind its length. */
  lemma FramedReadsBack(r: Row)
    requires Storable(r)
    ensures var b := Framed(r); var v := 61 + |r.version|;
      && |b| == v + 8 + |r.payload| && Ascii(b[..16], "fersaku.audit.v1") && b[16] == 0
      && Spelled(b[17..25]) == r.seqNo && b[25..57] == r.prev
      && Spelled(b[57..61]) == |r.version| && b[61..v] == r.version
      && Spelled(b[v..v + 8]) == |r.payload| && b[v + 8..] == r.payload
  {
    hide BigEndian, Pow256, Spelled, RowBytes, Sized, Ascii;
    WidthsSuffice();
    BigEndianReadsBack(r.seqNo, 8);
    BigEndianReadsBack(|r.version|, 4);
    BigEndianReadsBack(|r.payload|, 8);
    TextsOfTheChain();
    FramedIs(r);
    FramedParts(DOMAIN_PREFIX + [0], BigEndian(r.seqNo, 8), r.prev, BigEndian(|r.version|, 4), r.version, BigEndian(|r.payload|, 8), r.payload);
    assert (DOMAIN_PREFIX + [0])[..16] == DOMAIN_PREFIX;
  }

  lemma FramedIs(r: Row)
    requires Storable(r)
    ensures Framed(r) == (DOMAIN_PREFIX + [0]) + (BigEndian(r.seqNo, 8) + (r.prev + (BigEndian(|r.version|, 4) + (r.version + (BigEndian(|r.payload|, 8) + r.payload)))))
  {
    hide BigEndian;
    var data := BigEndian(|r.payload|, 8) + r.payload;
    assert Sized(r.version, 4) + data == BigEndian(|r.version|, 4) + (r.version + data);
  }

  lemma FramedParts(head: Bytes, number: Bytes, prev: Bytes, l: Bytes, version: Bytes, m: Bytes, payload: Bytes)
    requires |head| == 17 && |number| == 8 && |prev| == 32 && |l| == 4 && |m| == 8
    ensures var b := head + (number + (prev + (l + (version + (m + payload))))); var v := 61 + |version|;
      && |b| == v + 8 + |payload| && b[..16] == head[..16] && b[16] == head[16] && b[17..25] == number && b[25..57] == prev
      && b[57..61] == l && b[61..v] == version && b[v..v + 8] == m && b[v + 8..] == payload
  {
    var b := head + (number + (prev + (l + (version + (m + payload)))));
    NextPart(b, 0, head, number + (prev + (l + (version + (m + payload)))));
    NextPart(b, 17, number, prev + (l + (version + (m + payload))));
    NextPart(b, 25, prev, l + (version + (m + payload)));
    NextPart(b, 57, l, version + (m + payload));
    NextPart(b, 61, version, m + payload);
    NextPart(b, 61 + |version|, m, payload);
  }

  lemma NextPart(b: Bytes, i: nat, part: Bytes, rest: Bytes)
    requires i <= |b| && b[i..] == part + rest
    ensures i + |part| <= |b| && b[i..i + |part|] == part && b[i + |part|..] == rest && |b| == i + |part| + |rest|
  {
    assert b[i..i + |part|] == b[i..][..|part|] && b[i + |part|..] == b[i..][|part|..];
  }

  // ---------------------------------------------------------------------------
  // What a sound log is
  // ---------------------------------------------------------------------------

  /** A row from before the chain: its payload is not a JSON object. */
  predicate Legacy(r: Row) {
    |r.payload| == 0 || r.payload[0] != OPEN_BRACE
  }

  predicate Rehashes(sha: Bytes -> Bytes, r: Row)
  {
    r.version == LAUNCH_VERSION ==> r.hash == sha(RowBytes(r.seqNo, r.prev, r.version, r.payload))
  }

  predicate AnchorHolds(r: Row, cp: Option<Checkpoint>) {
    cp.Some? && cp.value.seqNo > 0 && r.seqNo == cp.value.seqNo ==> r.hash == cp.value.headHash && cp.value.signed
  }

  /** One row against the rows before it. */
  predicate RowFits(sha: Bytes -> Bytes, log: seq<Row>, cp: Option<Checkpoint>, k: nat)
    requires k < |log|
  {
    && log[k].seqNo == log[0].seqNo + k
    && (!Legacy(log[k]) ==> (k > 0 ==> log[k].prev == log[k - 1].hash) && Rehashes(sha, log[k]))
    && (Legacy(log[k]) ==> forall j :: 0 <= j < k ==> Legacy(log[j]))
    && AnchorHolds(log[k], cp)
  }

  /** The whole-log predicate: contiguous numbers, legacy rows only as a prefix, every later row
      linked and rehashed, the checkpoint row matching. */
  predicate ChainOk(sha: Bytes -> Bytes, log: seq<Row>, cp: Option<Checkpoint>)
  {
    forall k :: 0 <= k < |log| ==> RowFits(sha, log, cp, k)
  }

  /** The row was written by the chain: its payload is a JSON object. */
  predicate Chained(r: Row) {
    |r.payload| > 0 && r.payload[0] == '{' as int
  }

  /** Linked to the row before it, if there is one, and hashed as its version says. */
  predicate LinkedAt(sha: Bytes -> Bytes, log: seq<Row>, k: nat)
    requires k < |log|
  {
    && (k > 0 ==> log[k].prev == log[k - 1].hash)
    && (Ascii(log[k].version, "JCS-1") ==> log[k].hash == sha(RowBytes(log[k].seqNo, log[k].prev, log[k].version, log[k].payload)))
  }

  predicate AsAnchored(log: seq<Row>, cp: Checkpoint) {
    forall k :: 0 <= k < |log| && log[k].seqNo == cp.seqNo && cp.seqNo > 0 ==> log[k].hash == cp.headHash && cp.signed
  }

  predicate Numbered(log: seq<Row>) {
    forall k :: 0 <= k < |log| ==> log[k].seqNo == log[0].seqNo + k
  }

  /** From some row on all are of the chain, and none before. */
  predicate ChainFrom(sha: Bytes -> Bytes, log: seq<Row>, p: nat)
    requires p <= |log|
  {
    && (forall k :: 0 <= k < p ==> !Chained(log[k]))
    && (forall k :: p <= k < |log| ==> Chained(log[k]) && LinkedAt(sha, log, k))
  }

  /** A sound log: numbered without a gap, old rows first and chained ones after them, each of these linked and hashed, and the
      row of the checkpoint as it was anchored, with a good signature. */
  lemma SoundLogsExactly(sha: Bytes -> Bytes, log: seq<Row>, cp: Option<Checkpoint>)
    ensures ChainOk(sha, log, cp) <==>
              Numbered(log) && (exists p :: 0 <= p <= |log| && ChainFrom(sha, log, p)) && (cp.Some? ==> AsAnchored(log, cp.value))
  {
    hide ChainOk, Numbered, ChainFrom, AsAnchored;
    if ChainOk(sha, log, cp) {
      SoundLogsAreChains(sha, log, cp);
    } else if Numbered(log) && (cp.Some? ==> AsAnchored(log, cp.value)) {
      forall p | 0 <= p <= |log|
        ensures !ChainFrom(sha, log, p)
      {
        if ChainFrom(sha, log, p) {
          ChainsAreSound(sha, log, cp, p);
        }
      }
    }
  }

  lemma SoundLogsAreChains(sha: Bytes -> Bytes, log: seq<Row>, cp: Option<Checkpoint>)
    requires ChainOk(sha, log, cp)
    ensures Numbered(log) && ChainFrom(sha, log, FirstChained(log)) && (cp.Some? ==> AsAnchored(log, cp.value))
  {
    hide LinkedAt, Rehashes, Chained, Legacy;
    var p := FirstChained(log);
    forall k | 0 <= k < |log|
      ensures log[k].seqNo == log[0].seqNo + k && AnchorHolds(log[k], cp)
      ensures p <= k ==> Chained(log[k]) && LinkedAt(sha, log, k)
    {
      assert RowFits(sha, log, cp, k);
      RowMeans(sha, log, k);
      if p < k {
        RowMeans(sha, log, p);
      }
    }
  }

  lemma ChainsAreSound(sha: Bytes -> Bytes, log: seq<Row>, cp: Option<Checkpoint>, p: nat)
    requires Numbered(log) && p <= |log| && ChainFrom(sha, log, p) && (cp.Some? ==> AsAnchored(log, cp.value))
    ensures ChainOk(sha, log, cp)
  {
    hide LinkedAt, Rehashes, Chained, Legacy;
    forall k | 0 <= k < |log|
      ensures Legacy(log[k]) <==> k < p
      ensures k >= p ==> (k > 0 ==> log[k].prev == log[k - 1].hash) && Rehashes(sha, log[k])
    {
      RowMeans(sha, log, k);
    }
  }

  lemma RowMeans(sha: Bytes -> Bytes, log: seq<Row>, k: nat)
    requires k < |log|
    ensures Chained(log[k]) <==> !Legacy(log[k])
    ensures LinkedAt(sha, log, k) <==> (k > 0 ==> log[k].prev == log[k - 1].hash) && Rehashes(sha, log[k])
  {
    hide RowBytes, Ascii;
    TextsOfTheChain();
    SpellsOnce(log[k].version);
  }

  lemma SpellsOnce(s: Bytes)
    ensures Ascii(s, "JCS-1") <==> s == LAUNCH_VERSION
  {
    TextsOfTheChain();
    if Ascii(s, "JCS-1") {
      assert forall i :: 0 <= i < |s| ==> s[i] == LAUNCH_VERSION[i];
    }
  }

  function FirstChained(log: seq<Row>): (p: nat)
    ensures p <= |log| && (forall k :: 0 <= k < p ==> !Chained(log[k])) && (p < |log| ==> Chained(log[p]))
  {
    if log == [] || Chained(log[0]) then 0
    else
      var p := FirstChained(log[1..]);
      assert forall k :: 1 <= k < |log| ==> log[k] == log[1..][k - 1];
      p + 1
  }

  /** The table as the scan reads it: numbers are unique, rows come in their order. */
  predicate Stored(log: seq<Row>) {
    forall j, k :: 0 <= j < k < |log| ==> log[j].seqNo < log[k].seqNo
  }

  /** Up to limit rows in order, from a sequence number on. */
  function StreamFrom(log: seq<Row>, from: int, limit: nat): seq<Row> {
    if log == [] || limit == 0 then []
    else if log[0].seqNo < from then StreamFrom(log[1..], from, limit)
    else [log[0]] + StreamFrom(log[1..], from, limit - 1)
  }

  function Min(a: nat, b: nat): nat {
    if a < b then a else b
  }

  /** Once the first rows are behind, a batch is the rows that follow them. */
  lemma {:induction false} StreamContinues(log: seq<Row>, from: int, limit: nat, p: nat)
    requires p <= |log|
    requires forall k :: 0 <= k < p ==> log[k].seqNo < from
    requires forall k :: p <= k < |log| ==> log[k].seqNo >= from
    ensures |StreamFrom(log, from, limit)| == Min(limit, |log| - p)
    ensures forall i :: 0 <= i < Min(limit, |log| - p) ==> StreamFrom(log, from, limit)[i] == log[p + i]
    decreases |log|
  {
    if log != [] && limit > 0 {
      var tail := log[1..];
      assert forall k :: 0 <= k < |tail| ==> tail[k] == log[k + 1];
      if p > 0 {
        StreamContinues(tail, from, limit, p - 1);
      } else {
        StreamContinues(tail, from, limit - 1, 0);
      }
    }
  }

  lemma NextBatch(log: seq<Row>, limit: nat, done: nat, from: int)
    requires Stored(log) && log != [] && done <= |log|
    requires from == if done > 0 then log[done - 1].seqNo + 1 else log[0].seqNo
    ensures |StreamFrom(log, from, limit)| == Min(limit, |log| - done)
    ensures forall i :: 0 <= i < Min(limit, |log| - done) ==> StreamFrom(log, from, limit)[i] == log[done + i]
  {
    StreamContinues(log, from, limit, done);
  }

  datatype Report = Report(ok: bool, verified: nat, lastVerifiedSeq: int)

  /** What a scan remembers of the rows before the next one. */
  datatype Seen = Seen(done: nat, prevHash: Option<Bytes>, inModern: bool, last: int)

  /** One row against what the scan remembers. */
  predicate Sound(sha: Bytes -> Bytes, row: Row, seen: Seen, expectSeq: int, cp: Option<Checkpoint>)
  {
    && row.seqNo == expectSeq
    && (!Legacy(row) ==> (seen.prevHash.Some? ==> row.prev == seen.prevHash.value) && Rehashes(sha, row))
    && (Legacy(row) ==> !seen.inModern)
    && AnchorHolds(row, cp)
  }

  method CheckRow(sha: Bytes -> Bytes, row: Row, seen: Seen, expectSeq: int, cp: Option<Checkpoint>) returns (sound: bool)
    ensures sound == Sound(sha, row, seen, expectSeq, cp)
  {
    hide RowBytes;
    if row.seqNo != expectSeq {
      return false;
    }
    if !Legacy(row) {
      if seen.prevHash.Some? && row.prev != seen.prevHash.value {
        return false;
      }
      if row.version == LAUNCH_VERSION && sha(RowBytes(row.seqNo, row.prev, row.version, row.payload)) != row.hash {
        return false;
      }
    } else if seen.inModern {
      return false;
    }
    if cp.Some? && cp.value.seqNo > 0 && row.seqNo == cp.value.seqNo {
      if row.hash != cp.value.headHash || !cp.value.signed {
        return false;
      }
    }
    return true;
  }

  function After(seen: Seen, row: Row): Seen {
    Seen(seen.done + 1, Some(row.hash), seen.inModern || !Legacy(row), row.seqNo)
  }

  /** The rows read so far are sound, and these are the things to remember of them. */
  ghost predicate Scanned(sha: Bytes -> Bytes, log: seq<Row>, cp: Option<Checkpoint>, seen: Seen) {
    && seen.done <= |log|
    && (forall k :: 0 <= k < seen.done ==> RowFits(sha, log, cp, k))
    && seen.prevHash == (if seen.done > 0 then Some(log[seen.done - 1].hash) else None)
    && (seen.inModern <==> exists k :: 0 <= k < seen.done && !Legacy(log[k]))
    && (seen.done > 0 ==> seen.last == log[seen.done - 1].seqNo)
  }

  lemma SoundIsFitting(sha: Bytes -> Bytes, log: seq<Row>, cp: Option<Checkpoint>, seen: Seen)
    requires Scanned(sha, log, cp, seen) && seen.done < |log|
    ensures Sound(sha, log[seen.done], seen, log[0].seqNo + seen.done, cp) <==> RowFits(sha, log, cp, seen.done)
    ensures RowFits(sha, log, cp, seen.done) ==> Scanned(sha, log, cp, After(seen, log[seen.done]))
  {
    hide Rehashes, AnchorHolds, Legacy;
  }

  lemma NothingScanned(sha: Bytes -> Bytes, log: seq<Row>, cp: Option<Checkpoint>)
    ensures Scanned(sha, log, cp, Seen(0, None, false, 0))
  {
  }

  /** What a scan may conclude, wherever it stops. */
  lemma ScannedConcludes(sha: Bytes -> Bytes, log: seq<Row>, cp: Option<Checkpoint>, seen: Seen)
    requires Scanned(sha, log, cp, seen)
    ensures seen.done <= |log| && ChainOk(sha, log[..seen.done], cp)
    ensures seen.done > 0 ==> seen.last == log[seen.done - 1].seqNo
    ensures seen.done < |log| && ChainOk(sha, log, cp) ==> RowFits(sha, log, cp, seen.done)
    ensures seen.done == |log| ==> ChainOk(sha, log, cp)
  {
    forall k | 0 <= k < seen.done
      ensures RowFits(sha, log[..seen.done], cp, k)
    {
      assert RowFits(sha, log, cp, k);
    }
  }

  /** The streaming scan, for any batch size: OK exactly for a sound log, and otherwise the
      rows before the first unsound one are the verified ones. */
  method VerifyChain(sha: Bytes -> Bytes, log: seq<Row>, cp: Option<Checkpoint>, batch: nat) returns (report: Report)
    requires Stored(log) && batch > 0
    ensures report.ok <==> ChainOk(sha, log, cp)
    ensures report.ok ==> report.verified == |log| && (log != [] ==> report.lastVerifiedSeq == log[|log| - 1].seqNo)
    ensures !report.ok ==> report.verified < |log| && ChainOk(sha, log[..report.verified], cp)
                           && !RowFits(sha, log, cp, report.verified)
  {
    if |log| == 0 {
      return Report(true, 0, 0);
    }
    hide StreamFrom, ChainOk, RowFits, Sound, Legacy, Stored, Scanned;
    var minSeq, maxSeq := log[0].seqNo, log[|log| - 1].seqNo;
    var seen := Seen(0, None, false, 0);
    var expectSeq, from := minSeq, minSeq;
    NothingScanned(sha, log, cp);
    var more := true;
    while more
      invariant Scanned(sha, log, cp, seen) && seen.done <= |log|
      invariant expectSeq == minSeq + seen.done
      invariant more ==> from == if seen.done > 0 then log[seen.done - 1].seqNo + 1 else minSeq
      invariant !more ==> seen.done == |log|
      decreases more, |log| - seen.done
    {
      NextBatch(log, batch, seen.done, from);
      var rows := StreamFrom(log, from, batch);
      if |rows| == 0 {
        break;
      }
      ghost var start := seen.done;
      var i := 0;
      while i < |rows|
        invariant 0 <= i <= |rows| && seen.done == start + i
        invariant Scanned(sha, log, cp, seen)
        invariant expectSeq == minSeq + seen.done
      {
        assert rows[i] == log[seen.done];
        SoundIsFitting(sha, log, cp, seen);
        var sound := CheckRow(sha, rows[i], seen, expectSeq, cp);
        if !sound {
          ScannedConcludes(sha, log, cp, seen);
          return Report(false, seen.done, seen.last);
        }
        seen := After(seen, rows[i]);
        expectSeq := expectSeq + 1;
        i := i + 1;
      }
      if |rows| < batch {
        more := false;
      } else {
        from := rows[|rows| - 1].seqNo + 1;
      }
    }
    ScannedConcludes(sha, log, cp, seen);
    return Report(seen.last == maxSeq || maxSeq <= 0, seen.done, seen.last);
  }

  // ---------------------------------------------------------------------------
  // What verification is worth
  // ---------------------------------------------------------------------------

  predicate LaunchOnly(log: seq<Row>) {
    forall k :: 0 <= k < |log| ==> Storable(log[k]) && !Legacy(log[k]) && log[k].version == LAUNCH_VERSION
  }

  predicate Covers(log: seq<Row>, n: int) {
    log != [] && log[0].seqNo <= n <= log[|log| - 1].seqNo
  }

  lemma NumbersAreIndices(sha: Bytes -> Bytes, log: seq<Row>, cp: Option<Checkpoint>, n: int)
    requires Stored(log) && ChainOk(sha, log, cp) && Covers(log, n)
    ensures 0 <= n - log[0].seqNo < |log| && log[n - log[0].seqNo].seqNo == n
  {
    assert RowFits(sha, log, cp, |log| - 1);
    assert RowFits(sha, log, cp, n - log[0].seqNo);
  }

  /** The log holds the row of this number. */
  predicate Holds(log: seq<Row>, n: int) {
    log != [] && 0 <= n - log[0].seqNo < |log|
  }

  function RowAt(log: seq<Row>, n: int): Row
    requires Holds(log, n)
  {
    log[n - log[0].seqNo]
  }

  /** Two inputs with one hash, found in rows the logs hold under one number. */
  ghost predicate Collides(sha: Bytes -> Bytes, a: seq<Row>, b: seq<Row>, n: int) {
    && Holds(a, n) && Holds(b, n) && Storable(RowAt(a, n)) && Storable(RowAt(b, n))
    && Framed(RowAt(a, n)) != Framed(RowAt(b, n)) && sha(Framed(RowAt(a, n))) == sha(Framed(RowAt(b, n)))
  }

  ghost predicate CollisionIn(sha: Bytes -> Bytes, a: seq<Row>, b: seq<Row>, lo: int, hi: int) {
    exists n :: lo <= n <= hi && Collides(sha, a, b, n)
  }

  predicate Agree(a: seq<Row>, b: seq<Row>, n: int) {
    Holds(a, n) && Holds(b, n) && RowAt(a, n) == RowAt(b, n)
  }

  lemma RowIsBound(sha: Bytes -> Bytes, log: seq<Row>, cp: Option<Checkpoint>, n: int)
    requires Stored(log) && ChainOk(sha, log, cp) && LaunchOnly(log) && Holds(log, n)
    ensures var r := RowAt(log, n);
            && Storable(r) && r.seqNo == n && r.hash == sha(Framed(r)) && AnchorHolds(r, cp)
            && (Holds(log, n - 1) ==> r.prev == RowAt(log, n - 1).hash)
  {
    assert RowFits(sha, log, cp, n - log[0].seqNo);
  }

  /** Two bound rows of one hash agree, and so do the hashes before them, or they collide. */
  lemma AgreeAt(sha: Bytes -> Bytes, a: seq<Row>, b: seq<Row>, cp: Option<Checkpoint>, n: int)
    requires Stored(a) && Stored(b) && ChainOk(sha, a, cp) && ChainOk(sha, b, cp) && LaunchOnly(a) && LaunchOnly(b)
    requires Holds(a, n) && Holds(b, n) && RowAt(a, n).hash == RowAt(b, n).hash
    ensures Collides(sha, a, b, n)
            || (Agree(a, b, n) && (Holds(a, n - 1) && Holds(b, n - 1) ==> RowAt(a, n - 1).hash == RowAt(b, n - 1).hash))
  {
    RowIsBound(sha, a, cp, n);
    RowIsBound(sha, b, cp, n);
    hide ChainOk, Stored, LaunchOnly, Framed, AnchorHolds, Storable;
    if Framed(RowAt(a, n)) == Framed(RowAt(b, n)) {
      FramingIsInjective(RowAt(a, n), RowAt(b, n));
    }
  }

  /** From one pair of equal hashes downwards, the rows agree or a collision shows. */
  lemma {:induction false} AgreeDownFrom(sha: Bytes -> Bytes, a: seq<Row>, b: seq<Row>, cp: Option<Checkpoint>, lo: int, hi: int)
    requires Stored(a) && Stored(b) && ChainOk(sha, a, cp) && ChainOk(sha, b, cp) && LaunchOnly(a) && LaunchOnly(b)
    requires lo <= hi && Holds(a, lo) && Holds(b, lo) && Holds(a, hi) && Holds(b, hi)
    requires RowAt(a, hi).hash == RowAt(b, hi).hash
    ensures CollisionIn(sha, a, b, lo, hi) || forall n :: lo <= n <= hi ==> Agree(a, b, n)
    decreases hi - lo
  {
    hide ChainOk, Stored, LaunchOnly, Agree, Collides, CollisionIn, Holds, RowAt;
    if lo < hi {
      HeldBetween(a, lo, hi);
      HeldBetween(b, lo, hi);
    }
    AgreeAt(sha, a, b, cp, hi);
    CollisionGrows(sha, a, b, lo, hi);
    if !Collides(sha, a, b, hi) && lo < hi {
      AgreeDownFrom(sha, a, b, cp, lo, hi - 1);
    }
  }

  lemma HeldBetween(log: seq<Row>, lo: int, hi: int)
    requires Holds(log, lo) && Holds(log, hi) && lo < hi
    ensures Holds(log, hi - 1)
  {
  }

  lemma CollisionGrows(sha: Bytes -> Bytes, a: seq<Row>, b: seq<Row>, lo: int, hi: int)
    requires lo <= hi
    ensures Collides(sha, a, b, hi) || CollisionIn(sha, a, b, lo, hi - 1) ==> CollisionIn(sha, a, b, lo, hi)
  {
    hide Collides;
  }

  /** Two logs that verify against the same checkpoint are the same, row by row, on every number
      they share up to it, or the pair of them exhibits a collision of the hash. */
  lemma TamperingNeedsACollision(sha: Bytes -> Bytes, a: seq<Row>, b: seq<Row>, cp: Checkpoint, lo: int)
    requires Stored(a) && Stored(b) && ChainOk(sha, a, Some(cp)) && ChainOk(sha, b, Some(cp))
    requires LaunchOnly(a) && LaunchOnly(b)
    requires Covers(a, cp.seqNo) && Covers(b, cp.seqNo) && Covers(a, lo) && Covers(b, lo) && lo <= cp.seqNo
    ensures CollisionIn(sha, a, b, lo, cp.seqNo) || forall n :: lo <= n <= cp.seqNo ==> Agree(a, b, n)
  {
    NumbersAreIndices(sha, a, Some(cp), cp.seqNo);
    NumbersAreIndices(sha, b, Some(cp), cp.seqNo);
    NumbersAreIndices(sha, a, Some(cp), lo);
    NumbersAreIndices(sha, b, Some(cp), lo);
    RowIsBound(sha, a, Some(cp), cp.seqNo);
    RowIsBound(sha, b, Some(cp), cp.seqNo);
    hide ChainOk, Stored, LaunchOnly, Framed;
    AgreeDownFrom(sha, a, b, Some(cp), lo, cp.seqNo);
  }

  /** What the scan cannot see: every window of a sound log is sound, so rows may go missing at
      either end, even the checkpoint row and all after it. */
  lemma EveryWindowVerifies(sha: Bytes -> Bytes, log: seq<Row>, cp: Option<Checkpoint>, i: nat, j: nat)
    requires Stored(log) && ChainOk(sha, log, cp) && i <= j <= |log|
    ensures ChainOk(sha, log[i..j], cp)
  {
    var window := log[i..j];
    forall k | 0 <= k < |window|
      ensures RowFits(sha, window, cp, k)
    {
      assert RowFits(sha, log, cp, i + k) && RowFits(sha, log, cp, i);
      assert window[k] == log[i + k] && (k > 0 ==> window[k - 1] == log[i + k - 1]);
    }
  }

  /** Rows taken out of a sound log go unseen exactly when they stood at one of its ends. */
  lemma RemovalsGoUnseenExactlyAtTheEnds(sha: Bytes -> Bytes, log: seq<Row>, cp: Option<Checkpoint>, i: nat, j: nat)
    requires Stored(log) && ChainOk(sha, log, cp) && i < j <= |log|
    ensures ChainOk(sha, log[..i] + log[j..], cp) <==> i == 0 || j == |log|
  {
    var cut := log[..i] + log[j..];
    if i == 0 || j == |log| {
      EveryWindowVerifies(sha, log, cp, if i == 0 then j else 0, if i == 0 then |log| else i);
      assert cut == if i == 0 then log[j..|log|] else log[0..i];
    } else {
      assert RowFits(sha, log, cp, j);
      assert cut[0] == log[0] && cut[i] == log[j];
      assert !RowFits(sha, cut, cp, i);
    }
  }

  /** So a checkpoint vouches for its row exactly when the scanned log still reaches it. */
  lemma AnchorIsSeenExactlyWhenCovered(sha: Bytes -> Bytes, log: seq<Row>, cp: Checkpoint)
    requires Stored(log) && ChainOk(sha, log, Some(cp)) && cp.seqNo > 0
    ensures Covers(log, cp.seqNo) <==> exists k :: 0 <= k < |log| && log[k].seqNo == cp.seqNo && log[k].hash == cp.headHash
  {
    if Covers(log, cp.seqNo) {
      NumbersAreIndices(sha, log, Some(cp), cp.seqNo);
      assert RowFits(sha, log, Some(cp), cp.seqNo - log[0].seqNo);
    }
  }

  function Forged(log: seq<Row>, k: nat, payload: Bytes): seq<Row>
    requires k < |log|
  {
    log[k := log[k].(payload := payload)]
  }

  /** The new payload makes a legacy row of it after nothing but legacy rows, or a linked row before
      nothing but later ones that is of another version or has the same hash. */
  predicate PassesUnseen(sha: Bytes -> Bytes, log: seq<Row>, k: nat, payload: Bytes)
    requires k < |log|
  {
    var r := log[k].(payload := payload);
    if Legacy(r) then forall j :: 0 <= j < k ==> Legacy(log[j])
    else (k > 0 ==> r.prev == log[k - 1].hash) && Rehashes(sha, r) && forall j :: k < j < |log| ==> !Legacy(log[j])
  }

  /** The rows whose payloads no hash protects: legacy rows, rows of another version, and the first row
      once it is made to look like a legacy one. */
  predicate AnyPayloadPasses(log: seq<Row>, k: nat, payload: Bytes)
    requires k < |log|
  {
    if Legacy(log[k].(payload := payload)) then k == 0 || Legacy(log[k])
    else !Legacy(log[k]) && log[k].version != LAUNCH_VERSION
  }

  /** Exactly which payloads of a sound log can change unseen. Those of legacy rows can, those of rows of
      another version can, and so can the first one of any log, which may be made to look like a legacy row. */
  lemma PayloadsChangeUnseenExactly(sha: Bytes -> Bytes, log: seq<Row>, cp: Option<Checkpoint>, k: nat, payload: Bytes)
    requires ChainOk(sha, log, cp) && k < |log|
    ensures ChainOk(sha, Forged(log, k, payload), cp) <==> PassesUnseen(sha, log, k, payload)
    ensures AnyPayloadPasses(log, k, payload) ==> ChainOk(sha, Forged(log, k, payload), cp)
  {
    hide Rehashes, Legacy, AnchorHolds;
    if PassesUnseen(sha, log, k, payload) {
      UnseenPayloadsPass(sha, log, cp, k, payload);
    }
    if ChainOk(sha, Forged(log, k, payload), cp) {
      PassingPayloadsAreUnseen(sha, log, cp, k, payload);
    }
    if AnyPayloadPasses(log, k, payload) {
      WhereAnyPayloadPasses(sha, log, cp, k, payload);
    }
    hide ChainOk, PassesUnseen, AnyPayloadPasses;
  }

  lemma WhereAnyPayloadPasses(sha: Bytes -> Bytes, log: seq<Row>, cp: Option<Checkpoint>, k: nat, payload: Bytes)
    requires ChainOk(sha, log, cp) && k < |log| && AnyPayloadPasses(log, k, payload)
    ensures PassesUnseen(sha, log, k, payload)
  {
    hide Legacy, AnchorHolds;
    OtherVersionsAreNotRehashed(sha, log[k].(payload := payload));
    hide Rehashes;
    assert RowFits(sha, log, cp, k);
    forall j | k < j < |log| && !Legacy(log[k])
      ensures !Legacy(log[j])
    {
      assert RowFits(sha, log, cp, j);
    }
  }

  lemma UnseenPayloadsPass(sha: Bytes -> Bytes, log: seq<Row>, cp: Option<Checkpoint>, k: nat, payload: Bytes)
    requires ChainOk(sha, log, cp) && k < |log| && PassesUnseen(sha, log, k, payload)
    ensures ChainOk(sha, Forged(log, k, payload), cp)
  {
    hide PassesUnseen, RowFits;
    forall n | 0 <= n < |log|
      ensures RowFits(sha, Forged(log, k, payload), cp, n)
    {
      OtherRowsFit(sha, log, cp, k, payload, n);
    }
  }

  lemma PassingPayloadsAreUnseen(sha: Bytes -> Bytes, log: seq<Row>, cp: Option<Checkpoint>, k: nat, payload: Bytes)
    requires k < |log| && ChainOk(sha, Forged(log, k, payload), cp)
    ensures PassesUnseen(sha, log, k, payload)
  {
    hide Rehashes, Legacy, AnchorHolds;
    var forged := Forged(log, k, payload);
    assert RowFits(sha, forged, cp, k);
    forall j | 0 <= j < |log| && j != k
      ensures forged[j] == log[j] && RowFits(sha, forged, cp, j)
    {
    }
  }

  lemma OtherVersionsAreNotRehashed(sha: Bytes -> Bytes, r: Row)
    ensures r.version != LAUNCH_VERSION ==> Rehashes(sha, r)
  {
  }

  lemma OtherRowsFit(sha: Bytes -> Bytes, log: seq<Row>, cp: Option<Checkpoint>, k: nat, payload: Bytes, n: nat)
    requires ChainOk(sha, log, cp) && k < |log| && n < |log| && PassesUnseen(sha, log, k, payload)
    ensures RowFits(sha, Forged(log, k, payload), cp, n)
  {
    hide Rehashes, Legacy;
    assert RowFits(sha, log, cp, n) && RowFits(sha, log, cp, k) && RowFits(sha, log, cp, 0);
    var forged := Forged(log, k, payload);
    assert forall j :: 0 <= j < |log| && j != k ==> forged[j] == log[j];
    assert forall j :: 0 <= j < |log| ==> forged[j].seqNo == log[j].seqNo && forged[j].hash == log[j].hash && forged[j].prev == log[j].prev;
  }

  // ---------------------------------------------------------------------------
  // The log as the service grows it
  // ---------------------------------------------------------------------------

  function LastHash(log: seq<Row>): Bytes {
    if log == [] then Zeros(32) else log[|log| - 1].hash
  }

  function NextRow(sha: Bytes -> Bytes, log: seq<Row>, payload: Bytes): Row {
    var n := |log| + 1;
    Row(n, LastHash(log), sha(RowBytes(n, LastHash(log), LAUNCH_VERSION, payload)), LAUNCH_VERSION, payload)
  }

  predicate GrownRow(sha: Bytes -> Bytes, log: seq<Row>, k: nat)
    requires k < |log|
  {
    log[k] == NextRow(sha, log[..k], log[k].payload) && !Legacy(log[k])
  }

  predicate Grown(sha: Bytes -> Bytes, log: seq<Row>) {
    forall k :: 0 <= k < |log| ==> GrownRow(sha, log, k)
  }

  predicate Anchored(log: seq<Row>, cp: Checkpoint) {
    0 < cp.seqNo <= |log| && cp.headHash == log[cp.seqNo - 1].hash && cp.signed
  }

  lemma GrownLogsVerify(sha: Bytes -> Bytes, log: seq<Row>, cp: Option<Checkpoint>)
    requires Grown(sha, log) && (cp.Some? ==> Anchored(log, cp.value))
    ensures Stored(log) && ChainOk(sha, log, cp)
  {
    forall k | 0 <= k < |log|
      ensures log[k].seqNo == k + 1
    {
      assert GrownRow(sha, log, k);
    }
    forall k | 0 <= k < |log|
      ensures RowFits(sha, log, cp, k)
    {
      assert GrownRow(sha, log, k);
    }
  }

  lemma GrowthKeepsRows(sha: Bytes -> Bytes, log: seq<Row>, row: Row)
    requires Grown(sha, log) && row == NextRow(sha, log, row.payload) && !Legacy(row)
    ensures Grown(sha, log + [row])
  {
    forall k | 0 <= k < |log| + 1
      ensures GrownRow(sha, log + [row], k)
    {
      assert (log + [row])[..k] == log[..k];
      if k < |log| {
        assert GrownRow(sha, log, k);
      } else {
        assert log[..k] == log;
      }
    }
  }

  class AuditLog {
    const sha: Bytes -> Bytes
    var rows: seq<Row>
    var headSeq: nat
    var headHash: Bytes
    var checkpoints: seq<Checkpoint>

    ghost predicate Valid()
      reads this
    {
      && Grown(sha, rows) && headSeq == |rows| && headHash == LastHash(rows)
      && (forall c :: c in checkpoints ==> Anchored(rows, c))
      && (forall x, y :: 0 <= x < y < |checkpoints| ==> checkpoints[x].seqNo < checkpoints[y].seqNo)
    }

    constructor (sha: Bytes -> Bytes)
      ensures Valid() && rows == [] && checkpoints == [] && this.sha == sha
    {
      this.sha := sha;
      rows, headSeq, headHash, checkpoints := [], 0, Zeros(32), [];
    }

    /** Under the lock of the head row: number, link, hash, insert and move the head. */
    method Append(payload: Bytes)
      requires Valid() && payload != [] && payload[0] == OPEN_BRACE
      modifies this
      ensures Valid() && rows == old(rows) + [NextRow(sha, old(rows), payload)] && checkpoints == old(checkpoints)
    {
      var seqNo := headSeq + 1;
      var hash := sha(RowBytes(seqNo, headHash, LAUNCH_VERSION, payload));
      var row := Row(seqNo, headHash, hash, LAUNCH_VERSION, payload);
      GrowthKeepsRows(sha, rows, row);
      rows := rows + [row];
      headSeq, headHash := seqNo, hash;
    }

    /** Sign the head; an empty log and a second anchor at one number are refused. */
    method CreateCheckpoint() returns (created: bool)
      requires Valid()
      modifies this`checkpoints
      ensures Valid()
      ensures created <==> old(rows) != [] && forall c :: c in old(checkpoints) ==> c.seqNo != |rows|
      ensures checkpoints == if created then old(checkpoints) + [Checkpoint(|rows|, LastHash(rows), true)] else old(checkpoints)
    {
      if headSeq == 0 {
        return false;
      }
      if exists c :: c in checkpoints && c.seqNo == headSeq {
        return false;
      }
      forall x | 0 <= x < |checkpoints|
        ensures checkpoints[x].seqNo < headSeq
      {
        assert checkpoints[x] in checkpoints && Anchored(rows, checkpoints[x]);
      }
      checkpoints := checkpoints + [Checkpoint(headSeq, headHash, true)];
      return true;
    }

    /** A log grown only by Append and CreateCheckpoint always verifies, for every batch size. */
    method Verify(batch: nat) returns (report: Report)
      requires Valid() && batch > 0
      ensures report.ok && report.verified == |rows|
    {
      var latest := if checkpoints == [] then None else Some(checkpoints[|checkpoints| - 1]);
      GrownLogsVerify(sha, rows, latest);
      report := VerifyChain(sha, rows, latest, batch);
    }
  }
}
