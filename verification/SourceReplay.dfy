/**
 * Verification of the blocks a replay reads (pipeline/roster-source.ts, lines 77-82, 134-141 and 224-308):
 * header agreement, receipts and log coordinates, the deployment, and the receipts root. What two readers
 * deliver for the same headers is then the same history. Event decoding is a parameter.
 */
module SourceReplay {
  import opened Prelude
  import opened Hashing
  import opened LifecycleReplay
  import ReceiptTrie

  type Log = ReceiptTrie.Log
  type Body = ReceiptTrie.Receipt

  /** A log of the source contract as its event; none when it does not parse canonically. */
  type Decoder = Log -> Option<Event>

  datatype Header = Header(
    hash: Hash, parentHash: Hash, timestamp: nat, receiptsRoot: Word256, transactions: seq<Hash>)

  datatype RawLog = RawLog(body: Log, blockNumber: nat, blockHash: Hash, txHash: Hash, txIndex: nat, index: nat)

  datatype RawReceipt = RawReceipt(
    txHash: Hash, index: nat, blockNumber: nat, blockHash: Hash, kind: int, status: Option<int>,
    cumulativeGasUsed: int, logsBloom: Bytes, root: Option<Bytes>, logs: seq<RawLog>)

  /** What the two readers say of a block, and the receipts the first one returns for its transactions. */
  datatype RawBlock = RawBlock(header: Header, other: Header, receipts: seq<Option<RawReceipt>>)

  datatype Deployment = Deployment(address: Bytes, tx: Hash, block: nat, blockHash: Hash, index: nat)

  /** What is demanded of any block header; heights and hashes are well formed by their types. */
  predicate Sound(h: Header) {
    h.timestamp >= 1 && forall i, j :: 0 <= i < j < |h.transactions| ==> h.transactions[i] != h.transactions[j]
  }

  function LogBodies(logs: seq<RawLog>): (r: seq<Log>)
    ensures |r| == |logs|
  {
    seq(|logs|, i requires 0 <= i < |logs| => logs[i].body)
  }

  function BodyOf(r: RawReceipt): Body {
    ReceiptTrie.Receipt(r.kind, r.status, r.cumulativeGasUsed, r.logsBloom, r.root, LogBodies(r.logs))
  }

  // ---------- What a block must satisfy ----------

  predicate Present(receipts: seq<Option<RawReceipt>>) {
    forall i :: 0 <= i < |receipts| ==> receipts[i].Some?
  }

  function Bodies(receipts: seq<Option<RawReceipt>>): (r: seq<Body>)
    requires Present(receipts)
    ensures |r| == |receipts|
  {
    seq(|receipts|, i requires 0 <= i < |receipts| => BodyOf(receipts[i].value))
  }

  /** Logs of the receipts before transaction i: the index the next log must carry. */
  function LogsBefore(receipts: seq<Option<RawReceipt>>, i: nat): nat
    requires i <= |receipts|
  {
    if i == 0 then 0
    else LogsBefore(receipts, i - 1) + if receipts[i - 1].Some? then |receipts[i - 1].value.logs| else 0
  }

  predicate LogFits(b: RawBlock, height: nat, tx: nat, index: nat, log: RawLog)
    requires tx < |b.header.transactions|
  {
    log.blockNumber == height && log.blockHash == b.header.hash && log.txHash == b.header.transactions[tx]
    && log.txIndex == tx && log.index == index
  }

  predicate ReceiptFits(b: RawBlock, height: nat, tx: nat, first: nat, r: RawReceipt)
    requires tx < |b.header.transactions|
  {
    && r.txHash == b.header.transactions[tx] && r.index == tx && r.blockNumber == height && r.blockHash == b.header.hash
    && (r.status == Some(0) || r.status == Some(1)) && (r.status == Some(0) ==> r.logs == [])
    && forall j :: 0 <= j < |r.logs| ==> LogFits(b, height, tx, first + j, r.logs[j])
  }

  /** The events of the source contract among these logs, in order. */
  function EventsIn(address: Bytes, decode: Decoder, logs: seq<Log>): Option<seq<Event>> {
    if logs == [] then Some([])
    else
      var last := logs[|logs| - 1];
      match EventsIn(address, decode, logs[..|logs| - 1])
      case None => None
      case Some(events) =>
        if last.address != address then Some(events)
        else match decode(last) case None => None case Some(e) => Some(events + [e])
  }

  function BlockEvents(address: Bytes, decode: Decoder, bodies: seq<Body>): Option<seq<Event>> {
    if bodies == [] then Some([])
    else
      match (BlockEvents(address, decode, bodies[..|bodies| - 1]), EventsIn(address, decode, bodies[|bodies| - 1].logs))
      case (Some(before), Some(events)) => Some(before + events)
      case _ => None
  }

  predicate Deployed(d: Deployment, height: nat, header: Header) {
    height == d.block ==>
      header.hash == d.blockHash && d.index < |header.transactions| && header.transactions[d.index] == d.tx
  }

  predicate ReceiptsOk(b: RawBlock, height: nat) {
    && |b.receipts| == |b.header.transactions| && Present(b.receipts)
    && forall i :: 0 <= i < |b.receipts| ==> ReceiptFits(b, height, i, LogsBefore(b.receipts, i), b.receipts[i].value)
  }

  predicate BlockOk(H: HashFn, d: Deployment, decode: Decoder, height: nat, b: RawBlock) {
    && b.header == b.other && Sound(b.header) && Deployed(d, height, b.header) && ReceiptsOk(b, height)
    && BlockEvents(d.address, decode, Bodies(b.receipts)).Some?
    && ReceiptTrie.ComputeReceiptsRoot(H, ReceiptTrie.Numbered(Bodies(b.receipts))) == Some(b.header.receiptsRoot)
  }

  function ToBlock(d: Deployment, decode: Decoder, b: RawBlock): Block
    requires Present(b.receipts) && BlockEvents(d.address, decode, Bodies(b.receipts)).Some?
  {
    Block(b.header.hash, b.header.parentHash, b.header.timestamp, b.header.receiptsRoot, |b.header.transactions|,
          BlockEvents(d.address, decode, Bodies(b.receipts)).value)
  }

  /** A block that passes every check, as the replay sees it. */
  function Checked(H: HashFn, d: Deployment, decode: Decoder, height: nat, b: RawBlock): Option<Block> {
    if BlockOk(H, d, decode, height, b) then Some(ToBlock(d, decode, b)) else None
  }

  type Checker = (nat, RawBlock) -> Option<Block>

  function CheckerOf(H: HashFn, d: Deployment, decode: Decoder): Checker {
    (height: nat, b: RawBlock) => Checked(H, d, decode, height, b)
  }

  /** The verified blocks above a height, or none when one of them fails a check. */
  function Verified(check: Checker, height: nat, raws: seq<RawBlock>): (r: Option<seq<Block>>)
    ensures r.Some? ==> |r.value| == |raws|
  {
    if raws == [] then Some([])
    else
      var n := |raws| - 1;
      match Verified(check, height, raws[..n])
      case None => None
      case Some(blocks) =>
        match check(height + |raws|, raws[n]) case None => None case Some(b) => Some(blocks + [b])
  }

  /** The replay of the blocks when all of them are verified. */
  function ReplayOf(check: Checker, start: Progress, raws: seq<RawBlock>, now: nat): Option<Progress> {
    match Verified(check, start.height, raws) case None => None case Some(blocks) => Replay(start, blocks, now)
  }

  // ---------- The loops ----------

  method ScanLogs(b: RawBlock, height: nat, tx: nat, first: nat, logs: seq<RawLog>, d: Deployment, decode: Decoder)
    returns (r: Option<seq<Event>>)
    requires tx < |b.header.transactions|
    ensures r == if forall j :: 0 <= j < |logs| ==> LogFits(b, height, tx, first + j, logs[j])
                 then EventsIn(d.address, decode, LogBodies(logs)) else None
  {
    var events := [];
    ghost var bodies := LogBodies(logs);
    for j := 0 to |logs|
      invariant forall i :: 0 <= i < j ==> LogFits(b, height, tx, first + i, logs[i])
      invariant EventsIn(d.address, decode, bodies[..j]) == Some(events)
    {
      assert bodies[..j + 1][..j] == bodies[..j];
      if !LogFits(b, height, tx, first + j, logs[j]) {
        return None;
      }
      if logs[j].body.address == d.address {
        var event := decode(logs[j].body);
        if event.None? {
          UnreadableLog(d.address, decode, bodies, j);
          return None;
        }
        events := events + [event.value];
      }
    }
    assert bodies[..|logs|] == bodies;
    return Some(events);
  }

  lemma {:induction false} UnreadableLog(address: Bytes, decode: Decoder, logs: seq<Log>, j: nat)
    requires j < |logs| && EventsIn(address, decode, logs[..j + 1]).None?
    ensures EventsIn(address, decode, logs).None?
  {
    if j == |logs| - 1 {
      assert logs[..j + 1] == logs;
    } else {
      assert logs[..|logs| - 1][..j + 1] == logs[..j + 1];
      UnreadableLog(address, decode, logs[..|logs| - 1], j);
    }
  }

  lemma {:induction false} UnreadableReceipt(address: Bytes, decode: Decoder, bodies: seq<Body>, j: nat)
    requires j < |bodies| && EventsIn(address, decode, bodies[j].logs).None?
    ensures BlockEvents(address, decode, bodies).None?
  {
    if j < |bodies| - 1 {
      UnreadableReceipt(address, decode, bodies[..|bodies| - 1], j);
    }
  }

  /** The answer for one receipt: its events of the source, none when it does not fit or does not parse. */
  function ReceiptEvents(b: RawBlock, height: nat, tx: nat, first: nat, d: Deployment, decode: Decoder)
    : Option<seq<Event>>
    requires tx < |b.header.transactions| == |b.receipts|
  {
    if b.receipts[tx].Some? && ReceiptFits(b, height, tx, first, b.receipts[tx].value)
    then EventsIn(d.address, decode, BodyOf(b.receipts[tx].value).logs) else None
  }

  method CheckReceipt(b: RawBlock, height: nat, tx: nat, first: nat, d: Deployment, decode: Decoder)
    returns (r: Option<seq<Event>>)
    requires tx < |b.header.transactions| == |b.receipts|
    ensures r == ReceiptEvents(b, height, tx, first, d, decode)
  {
    if b.receipts[tx].None? {
      return None;
    }
    var receipt := b.receipts[tx].value;
    if receipt.txHash != b.header.transactions[tx] || receipt.index != tx || receipt.blockNumber != height
       || receipt.blockHash != b.header.hash || !(receipt.status == Some(0) || receipt.status == Some(1))
       || (receipt.status == Some(0) && receipt.logs != []) {
      return None;
    }
    r := ScanLogs(b, height, tx, first, receipt.logs, d, decode);
  }

  /** The first tx receipts fit. */
  predicate FitsUpTo(b: RawBlock, height: nat, tx: nat)
    requires tx <= |b.receipts| == |b.header.transactions|
  {
    && Present(b.receipts[..tx])
    && forall i :: 0 <= i < tx ==> ReceiptFits(b, height, i, LogsBefore(b.receipts, i), b.receipts[i].value)
  }

  lemma OneUnreadable(b: RawBlock, height: nat, tx: nat, d: Deployment, decode: Decoder)
    requires tx < |b.header.transactions| == |b.receipts|
    requires ReceiptEvents(b, height, tx, LogsBefore(b.receipts, tx), d, decode).None?
    ensures !(ReceiptsOk(b, height) && BlockEvents(d.address, decode, Bodies(b.receipts)).Some?)
  {
    if ReceiptsOk(b, height) {
      UnreadableReceipt(d.address, decode, Bodies(b.receipts), tx);
    }
  }

  lemma OneMoreFits(b: RawBlock, height: nat, tx: nat, d: Deployment, decode: Decoder)
    requires tx < |b.header.transactions| == |b.receipts| && FitsUpTo(b, height, tx)
    requires ReceiptEvents(b, height, tx, LogsBefore(b.receipts, tx), d, decode).Some?
    ensures FitsUpTo(b, height, tx + 1)
  {
    assert b.receipts[..tx + 1] == b.receipts[..tx] + [b.receipts[tx]];
  }

  method CheckReceipts(b: RawBlock, height: nat, d: Deployment, decode: Decoder)
    returns (ok: bool, bodies: seq<Body>, events: seq<Event>)
    requires |b.receipts| == |b.header.transactions|
    ensures ok <==> ReceiptsOk(b, height) && BlockEvents(d.address, decode, Bodies(b.receipts)).Some?
    ensures ok ==> bodies == Bodies(b.receipts) && Some(events) == BlockEvents(d.address, decode, bodies)
  {
    bodies, events := [], [];
    var nextLog := 0;
    for tx := 0 to |b.receipts|
      invariant FitsUpTo(b, height, tx) && bodies == Bodies(b.receipts[..tx]) && nextLog == LogsBefore(b.receipts, tx)
      invariant BlockEvents(d.address, decode, bodies) == Some(events)
    {
      var more := CheckReceipt(b, height, tx, nextLog, d, decode);
      if more.None? {
        OneUnreadable(b, height, tx, d, decode);
        return false, bodies, events;
      }
      OneMoreFits(b, height, tx, d, decode);
      OneMoreBody(b.receipts, bodies, tx);
      bodies := bodies + [BodyOf(b.receipts[tx].value)];
      events, nextLog := events + more.value, nextLog + |b.receipts[tx].value.logs|;
    }
    assert b.receipts[..|b.receipts|] == b.receipts;
    return true, bodies, events;
  }

  lemma OneMoreBody(receipts: seq<Option<RawReceipt>>, bodies: seq<Body>, tx: nat)
    requires tx < |receipts| && Present(receipts[..tx]) && receipts[tx].Some? && bodies == Bodies(receipts[..tx])
    ensures Present(receipts[..tx + 1]) && bodies + [BodyOf(receipts[tx].value)] == Bodies(receipts[..tx + 1])
    ensures (bodies + [BodyOf(receipts[tx].value)])[..tx] == bodies
  {
    assert receipts[..tx + 1] == receipts[..tx] + [receipts[tx]];
  }

  method CheckBlock(H: HashFn, d: Deployment, decode: Decoder, height: nat, b: RawBlock) returns (r: Option<Block>)
    ensures r == Checked(H, d, decode, height, b)
  {
    if !Sound(b.header) || b.header != b.other || |b.receipts| != |b.header.transactions| {
      return None;
    }
    if height == d.block && (b.header.hash != d.blockHash || d.index >= |b.header.transactions|
                             || b.header.transactions[d.index] != d.tx) {
      return None;
    }
    var ok, bodies, events := CheckReceipts(b, height, d, decode);
    if !ok || ReceiptTrie.ComputeReceiptsRoot(H, ReceiptTrie.Numbered(bodies)) != Some(b.header.receiptsRoot) {
      return None;
    }
    return Some(Block(b.header.hash, b.header.parentHash, b.header.timestamp, b.header.receiptsRoot,
                      |b.header.transactions|, events));
  }

  function Extended(p: Progress, b: Block, now: nat): Option<Progress> {
    if LifecycleReplay.Extends(p, b, now) then Some(AfterBlock(p, b)) else None
  }

  /** One more block: checked, then replayed. */
  function After(check: Checker, before: Option<Progress>, height: nat, raw: RawBlock, now: nat): Option<Progress> {
    if before.None? then None
    else
      match check(height, raw)
      case None => None
      case Some(b) => Extended(before.value, b, now)
  }

  lemma ReplayNext(check: Checker, start: Progress, raws: seq<RawBlock>, i: nat, now: nat)
    requires i < |raws|
    ensures ReplayOf(check, start, raws[..i + 1], now) ==
            After(check, ReplayOf(check, start, raws[..i], now), start.height + i + 1, raws[i], now)
  {
    assert raws[..i + 1][..i] == raws[..i];
    var before, next := Verified(check, start.height, raws[..i]), check(start.height + i + 1, raws[i]);
    if before.Some? && next.Some? {
      assert (before.value + [next.value])[..i] == before.value;
    }
  }

  ghost predicate IsChecker(check: Checker, H: HashFn, d: Deployment, decode: Decoder) {
    forall height: nat, b {:trigger Checked(H, d, decode, height, b)} ::
      check(height, b) == Checked(H, d, decode, height, b)
  }

  /** The replay after each number of blocks, from a start and step by step. */
  ghost predicate Stepwise(check: Checker, at: nat -> Option<Progress>, start: Progress, raws: seq<RawBlock>,
                           now: nat) {
    && at(0) == Some(start)
    && forall i: nat :: i < |raws| ==> at(i + 1) == After(check, at(i), start.height + i + 1, raws[i], now)
  }

  lemma {:induction false} FailureIsFinal(check: Checker, at: nat -> Option<Progress>, start: Progress,
                                          raws: seq<RawBlock>, now: nat, i: nat)
    requires Stepwise(check, at, start, raws, now) && i <= |raws| && at(i).None?
    ensures at(|raws|).None?
    decreases |raws| - i
  {
    if i < |raws| {
      FailureIsFinal(check, at, start, raws, now, i + 1);
    }
  }

  /** Checks each block and replays it, as the scan does. */
  method ReplayVerified(H: HashFn, d: Deployment, decode: Decoder, start: Progress, raws: seq<RawBlock>, now: nat)
    returns (r: Option<Progress>)
    ensures r == ReplayOf(CheckerOf(H, d, decode), start, raws, now)
  {
    ghost var check := CheckerOf(H, d, decode);
    ghost var at := (i: nat) => if i <= |raws| then ReplayOf(check, start, raws[..i], now) else None;
    forall i: nat | i < |raws|
      ensures at(i + 1) == After(check, at(i), start.height + i + 1, raws[i], now)
    {
      ReplayNext(check, start, raws, i, now);
    }
    assert raws[..|raws|] == raws;
    r := ScanBlocks(H, d, decode, check, at, start, raws, now);
  }

  method ScanBlocks(H: HashFn, d: Deployment, decode: Decoder, ghost check: Checker, ghost at: nat -> Option<Progress>,
                    start: Progress, raws: seq<RawBlock>, now: nat)
    returns (r: Option<Progress>)
    requires IsChecker(check, H, d, decode) && Stepwise(check, at, start, raws, now)
    ensures r == at(|raws|)
  {
    var p := start;
    for i := 0 to |raws|
      invariant at(i) == Some(p) && p.height == start.height + i
    {
      var q := NextBlock(H, d, decode, check, at, start, raws, i, p, now);
      if q.None? {
        FailureIsFinal(check, at, start, raws, now, i + 1);
        return None;
      }
      p := q.value;
    }
    return Some(p);
  }

  method NextBlock(H: HashFn, d: Deployment, decode: Decoder, ghost check: Checker, ghost at: nat -> Option<Progress>,
                   ghost start: Progress, raws: seq<RawBlock>, i: nat, p: Progress, now: nat)
    returns (r: Option<Progress>)
    requires IsChecker(check, H, d, decode) && Stepwise(check, at, start, raws, now)
    requires i < |raws| && at(i) == Some(p) && p.height == start.height + i
    ensures r == at(i + 1) && (r.Some? ==> r.value.height == p.height + 1)
  {
    var b := AcceptBlock(H, d, decode, check, p.height + 1, raws[i]);
    if b.None? {
      return None;
    }
    r := ReplayOne(p, b.value, now);
  }

  method AcceptBlock(H: HashFn, d: Deployment, decode: Decoder, ghost check: Checker, height: nat, raw: RawBlock)
    returns (r: Option<Block>)
    requires IsChecker(check, H, d, decode)
    ensures r == check(height, raw)
  {
    r := CheckBlock(H, d, decode, height, raw);
  }

  method ReplayOne(p: Progress, b: Block, now: nat) returns (r: Option<Progress>)
    ensures r == Extended(p, b, now) && (r.Some? ==> r.value.height == p.height + 1)
  {
    if b.parentHash != p.blockHash || !(p.timestamp <= b.timestamp <= now) {
      return None;
    }
    var q := ReplayLogs(p, b);
    if q.None? {
      return None;
    }
    return Some(q.value.(height := p.height + 1, blockHash := b.hash, timestamp := b.timestamp,
                         receiptsRoot := b.receiptsRoot, receipts := p.receipts + b.receipts,
                         chainDigest := WithBlock(p.chainDigest, p.height + 1, b)));
  }

  // ---------- Altered or omitted receipts ----------

  /** The receipts a reader returned fit the encoding, and the strings hashed for their root are among these. */
  ghost predicate RootKnown(H: HashFn, b: RawBlock, hashed: set<Bytes>) {
    && Present(b.receipts) && ReceiptTrie.Encodable(ReceiptTrie.Numbered(Bodies(b.receipts)))
    && ReceiptTrie.RootCovered(H, ReceiptTrie.Numbered(Bodies(b.receipts)), hashed)
  }

  /** Two readers' versions of one block of the header reader, with the strings hashed for the receipts root. */
  ghost predicate SameHeader(H: HashFn, b: RawBlock, b': RawBlock, hashed: set<Bytes>) {
    b.other == b'.other && RootKnown(H, b, hashed) && RootKnown(H, b', hashed)
  }

  ghost predicate SameHeaders(H: HashFn, raws: seq<RawBlock>, raws': seq<RawBlock>, hashed: set<Bytes>) {
    |raws| == |raws'| && forall i :: 0 <= i < |raws| ==> SameHeader(H, raws[i], raws'[i], hashed)
  }

  /** When both versions pass the checks they are one block. */
  ghost predicate PassAlike(check: Checker, height: nat, b: RawBlock, b': RawBlock) {
    check(height, b).Some? && check(height, b').Some? ==> check(height, b) == check(height, b')
  }

  /** Two accepted versions of one header carry the same events. */
  lemma SameHeaderSameBlock(H: HashFn, d: Deployment, decode: Decoder, height: nat, b: RawBlock, b': RawBlock,
                            hashed: set<Bytes>)
    requires CollisionFree(H, hashed) && SameHeader(H, b, b', hashed)
    ensures PassAlike(CheckerOf(H, d, decode), height, b, b')
  {
    if BlockOk(H, d, decode, height, b) && BlockOk(H, d, decode, height, b') {
      ReceiptTrie.BlockReceiptsAreBound(H, Bodies(b.receipts), Bodies(b'.receipts), hashed);
    }
  }

  lemma AlwaysPassAlike(H: HashFn, d: Deployment, decode: Decoder, hashed: set<Bytes>)
    requires CollisionFree(H, hashed)
    ensures forall height: nat, b, b' ::
              SameHeader(H, b, b', hashed) ==> PassAlike(CheckerOf(H, d, decode), height, b, b')
  {
    forall height: nat, b, b' | SameHeader(H, b, b', hashed)
      ensures PassAlike(CheckerOf(H, d, decode), height, b, b')
    {
      SameHeaderSameBlock(H, d, decode, height, b, b', hashed);
    }
  }

  /** Two versions of a scan that are alike block by block verify to the same blocks. */
  lemma {:induction false} SameScan(check: Checker, same: (RawBlock, RawBlock) -> bool, height: nat,
                                    raws: seq<RawBlock>, raws': seq<RawBlock>)
    requires forall height: nat, b, b' :: same(b, b') ==> PassAlike(check, height, b, b')
    requires |raws| == |raws'| && forall i :: 0 <= i < |raws| ==> same(raws[i], raws'[i])
    requires Verified(check, height, raws).Some? && Verified(check, height, raws').Some?
    ensures Verified(check, height, raws) == Verified(check, height, raws')
  {
    if raws != [] {
      SameScan(check, same, height, raws[..|raws| - 1], raws'[..|raws| - 1]);
      assert PassAlike(check, height + |raws|, raws[|raws| - 1], raws'[|raws| - 1]);
    }
  }

  /**
   * The main reader cannot omit, reorder or alter a receipt: whatever two of them return beside the same header
   * reader, if both scans pass then they end in the same progress, hence in the same roster and checkpoint.
   */
  lemma ReceiptsCannotBeAltered(H: HashFn, d: Deployment, decode: Decoder, start: Progress, raws: seq<RawBlock>,
                                raws': seq<RawBlock>, now: nat, hashed: set<Bytes>)
    requires CollisionFree(H, hashed) && SameHeaders(H, raws, raws', hashed)
    requires ReplayOf(CheckerOf(H, d, decode), start, raws, now).Some?
    requires ReplayOf(CheckerOf(H, d, decode), start, raws', now).Some?
    ensures ReplayOf(CheckerOf(H, d, decode), start, raws, now) == ReplayOf(CheckerOf(H, d, decode), start, raws', now)
  {
    AlwaysPassAlike(H, d, decode, hashed);
    SameScan(CheckerOf(H, d, decode), (b, b') => SameHeader(H, b, b', hashed), start.height, raws, raws');
  }
}
