/**
Discovering Balancer V3 pools from the vault's registration logs: decoding one log, and paging through
all of them.
*/
module Discovery {
  import opened Wrappers
  import opened Arithmetic
  import opened Bytes

  /** 2^63: no byte vector is longer, and 64-bit index arithmetic on it does not wrap. */
  const VECTOR_LIMIT: nat := 0x8000_0000_0000_0000
  const USIZE_MAX: nat := 0xffff_ffff_ffff_ffff
  const MAX_TOKENS: nat := 64

  type Bytes20 = seq<Byte>

  /** What fits in a byte vector. */
  type Vector = b: seq<Byte> | |b| < VECTOR_LIMIT

  datatype PoolRecord = PoolRecord(address: Bytes20, tokens: seq<Bytes20>)

  /** One log: its block, its second topic if there is one, and its data, already hex-decoded. */
  datatype Log = Log(block: nat, topic: Option<seq<Byte>>, data: Vector)

  datatype DecodeError = MissingPool | BadTopic | Truncated | OffsetOverflow | TooManyTokens

  /** Tokens `from`, ..., `count - 1` of an array whose entries start at byte `at`. */
  function Tokens(data: seq<Byte>, at: nat, from: nat, count: nat): Result<seq<Bytes20>, DecodeError>
    requires from <= count
    decreases count - from
  {
    if from == count then Ok([])
    else
      var start := at + from * 128;
      if start + 32 > |data| then Err(Truncated)
      else
        match Tokens(data, at, from + 1, count)
        case Err(e) => Err(e)
        case Ok(rest) => Ok([data[start + 12..start + 32]] + rest)
  }

  function Decode(log: Log): Result<PoolRecord, DecodeError> {
    if log.topic.None? then Err(MissingPool)
    else if |log.topic.value| != 32 then Err(BadTopic)
    else if |log.data| < 32 then Err(Truncated)
    else
      var offset := WordOf(log.data[..32]);
      if offset > USIZE_MAX || offset + 32 > USIZE_MAX then Err(OffsetOverflow)
      else if offset + 32 > |log.data| then Err(Truncated)
      else
        var count := WordOf(log.data[offset..offset + 32]);
        if count > MAX_TOKENS then Err(TooManyTokens)
        else
          match Tokens(log.data, offset + 32, 0, count)
          case Err(e) => Err(e)
          case Ok(tokens) => Ok(PoolRecord(log.topic.value[12..], tokens))
  }

  /** Pushing onto a growing vector, with every slice in bounds and no index beyond 64 bits, computes
      `Decode`. */
  method DecodeRegisteredPool(log: Log) returns (r: Result<PoolRecord, DecodeError>)
    ensures r == Decode(log)
  {
    if log.topic.None? {
      return Err(MissingPool);
    }
    var topic := log.topic.value;
    if |topic| != 32 {
      return Err(BadTopic);
    }
    var pool := topic[12..];
    var data := log.data;
    if |data| < 32 {
      return Err(Truncated);
    }
    var offset := WordOf(data[..32]);
    if offset > USIZE_MAX {
      return Err(OffsetOverflow);
    }
    var lengthEnd: nat := offset + 32;
    if lengthEnd > USIZE_MAX {
      return Err(OffsetOverflow);
    }
    if lengthEnd > |data| {
      return Err(Truncated);
    }
    var count := WordOf(data[offset..lengthEnd]);
    if count > MAX_TOKENS {
      return Err(TooManyTokens);
    }
    var tokens := DecodeTokens(data, lengthEnd, count);
    match tokens {
      case Ok(list) => return Ok(PoolRecord(pool, list));
      case Err(e) => return Err(e);
    }
  }

  /** The loop over the entries. */
  method DecodeTokens(data: Vector, at: nat, count: nat) returns (r: Result<seq<Bytes20>, DecodeError>)
    requires at <= |data| && count <= MAX_TOKENS
    ensures r == Tokens(data, at, 0, count)
  {
    var tokens: seq<Bytes20> := [];
    PrependNothing(Tokens(data, at, 0, count));
    for index := 0 to count
      invariant Tokens(data, at, 0, count) == Prepend(tokens, Tokens(data, at, index, count))
    {
      var start := at + index * 128;
      var end := start + 32;
      assert end <= USIZE_MAX;
      if end > |data| {
        return Err(Truncated);
      }
      var token := data[start + 12..end];
      PrependOne(tokens, token, Tokens(data, at, index + 1, count));
      tokens := tokens + [token];
    }
    assert tokens + [] == tokens;
    return Ok(tokens);
  }

  lemma PrependNothing(rest: Result<seq<Bytes20>, DecodeError>)
    ensures Prepend([], rest) == rest
  {
    if rest.Ok? {
      assert [] + rest.value == rest.value;
    }
  }

  lemma PrependOne(front: seq<Bytes20>, token: Bytes20, rest: Result<seq<Bytes20>, DecodeError>)
    ensures Prepend(front, Prepend([token], rest)) == Prepend(front + [token], rest)
  {
    if rest.Ok? {
      assert front + ([token] + rest.value) == front + [token] + rest.value;
    }
  }

  function Prepend(front: seq<Bytes20>, rest: Result<seq<Bytes20>, DecodeError>): Result<seq<Bytes20>, DecodeError> {
    match rest
    case Ok(tokens) => Ok(front + tokens)
    case Err(e) => Err(e)
  }

  // ---- Which logs decode --------------------------------------------------------------------------

  /** The entry's 32 bytes lie within the data. */
  predicate EntryFits(data: seq<Byte>, at: nat, i: nat) {
    at + i * 128 + 32 <= |data|
  }

  lemma {:induction false} TokensIs(data: seq<Byte>, at: nat, from: nat, count: nat)
    requires from <= count
    ensures Tokens(data, at, from, count).Ok? <==> forall i: nat :: from <= i < count ==> EntryFits(data, at, i)
    ensures Tokens(data, at, from, count).Ok? ==>
              var tokens := Tokens(data, at, from, count).value;
              && |tokens| == count - from
              && forall i: nat :: from <= i < count && EntryFits(data, at, i) ==>
                   tokens[i - from] == data[at + i * 128 + 12..at + i * 128 + 32]
    decreases count - from
  {
    if from < count {
      TokensIs(data, at, from + 1, count);
      assert EntryFits(data, at, from) <==> at + from * 128 + 32 <= |data|;
    }
  }

  /** The data has a word at its offset, counting at most 64 entries that all lie within it. */
  predicate HasEntries(data: seq<Byte>) {
    && |data| >= 32
    && var offset := WordOf(data[..32]);
       && offset + 32 <= |data|
       && var (count, at) := (WordOf(data[offset..offset + 32]), offset + 32);
          count <= 64 && forall i: nat :: i < count ==> EntryFits(data, at, i)
  }

  /** A log decodes if and only if its topic is a word and its data has its entries; the pool's address is the
      low 20 bytes of the topic, and the tokens are the low 20 bytes of the entries' first words, in order. */
  lemma DecodesIff(log: Log)
    ensures Decode(log).Ok? <==> log.topic.Some? && |log.topic.value| == 32 && HasEntries(log.data)
    ensures Decode(log).Ok? ==>
              var pool, offset := Decode(log).value, WordOf(log.data[..32]);
              var count := WordOf(log.data[offset..offset + 32]);
              && pool.address == log.topic.value[12..32] && |pool.tokens| == count
              && forall i: nat :: i < count && EntryFits(log.data, offset + 32, i) ==>
                   pool.tokens[i] == log.data[offset + 32 + i * 128 + 12..offset + 32 + i * 128 + 32]
  {
    if |log.data| >= 32 {
      var offset := WordOf(log.data[..32]);
      if offset + 32 <= |log.data| {
        TokensIs(log.data, offset + 32, 0, WordOf(log.data[offset..offset + 32]));
      }
    }
  }

  // ---- The encoding it must read ----------------------------------------------------------------

  /** One static four-word entry: the token address in the low 20 bytes of the first word. */
  datatype TokenConfig = TokenConfig(pad: seq<Byte>, token: Bytes20, rest: seq<Byte>)

  predicate WellSized(c: TokenConfig) {
    |c.pad| == 12 && |c.token| == 20 && |c.rest| == 96
  }

  predicate AllWellSized(configs: seq<TokenConfig>) {
    forall i :: 0 <= i < |configs| ==> WellSized(configs[i])
  }

  function ConfigBytes(configs: seq<TokenConfig>): (b: seq<Byte>)
    requires AllWellSized(configs)
    ensures |b| == 128 * |configs|
  {
    if configs == [] then []
    else configs[0].pad + configs[0].token + configs[0].rest + ConfigBytes(configs[1..])
  }

  function ConfigTokens(configs: seq<TokenConfig>): seq<Bytes20> {
    if configs == [] then [] else [configs[0].token] + ConfigTokens(configs[1..])
  }

  /** Log data whose first head word is the offset of a dynamic array of token configs.  `head` is the
      rest of the head and whatever lies before the array; `tail` is what follows it. */
  function EncodeConfigs(head: seq<Byte>, configs: seq<TokenConfig>, tail: seq<Byte>): seq<Byte>
    requires AllWellSized(configs)
  {
    ToBigEndian(32 + |head|, 32) + head + ToBigEndian(|configs|, 32) + ConfigBytes(configs) + tail
  }

  lemma {:induction false} TokensOfEncoding(before: seq<Byte>, configs: seq<TokenConfig>, tail: seq<Byte>, from: nat, count: nat, at: nat)
    requires AllWellSized(configs) && from + |configs| == count && |before| == at + from * 128
    ensures Tokens(before + ConfigBytes(configs) + tail, at, from, count) == Ok(ConfigTokens(configs))
    decreases |configs|
  {
    if configs != [] {
      var c := configs[0];
      var data := before + ConfigBytes(configs) + tail;
      var next := before + (c.pad + c.token + c.rest);
      assert data == next + ConfigBytes(configs[1..]) + tail;
      assert |before| + 32 <= |data| && data[|before| + 12..|before| + 32] == c.token;
      TokensOfEncoding(next, configs[1..], tail, from + 1, count, at);
    }
  }

  /** Where the parts of the encoding are. */
  lemma EncodingParts(head: seq<Byte>, configs: seq<TokenConfig>, tail: seq<Byte>)
    requires AllWellSized(configs)
    ensures var data, offset := EncodeConfigs(head, configs, tail), 32 + |head|;
            var before := ToBigEndian(offset, 32) + head + ToBigEndian(|configs|, 32);
            && |data| >= offset + 32 + 128 * |configs| && |before| == offset + 32
            && data[..32] == ToBigEndian(offset, 32) && data[offset..offset + 32] == ToBigEndian(|configs|, 32)
            && data == before + ConfigBytes(configs) + tail
  {
  }

  /** On the encoding of any list of token configs the decoder returns their tokens in order, or says
      that they are too many. */
  lemma DecodeReadsEncoding(block: nat, pad: seq<Byte>, pool: Bytes20, head: seq<Byte>, configs: seq<TokenConfig>, tail: seq<Byte>)
    requires |pad| == 12 && |pool| == 20 && AllWellSized(configs)
    requires |EncodeConfigs(head, configs, tail)| < VECTOR_LIMIT
    ensures Decode(Log(block, Some(pad + pool), EncodeConfigs(head, configs, tail))) ==
            if |configs| <= 64 then Ok(PoolRecord(pool, ConfigTokens(configs))) else Err(TooManyTokens)
  {
    var offset := 32 + |head|;
    EncodingParts(head, configs, tail);
    WordOfEncoding(offset);
    WordOfEncoding(|configs|);
    assert (pad + pool)[12..] == pool;
    if |configs| <= MAX_TOKENS {
      TokensOfEncoding(ToBigEndian(offset, 32) + head + ToBigEndian(|configs|, 32), configs, tail, 0, |configs|, offset + 32);
    }
  }

  // ---- Paging -----------------------------------------------------------------------------------

  const PAGE_SIZE: nat := 1_000
  const MAX_PAGES: nat := 100

  predicate Ascending(logs: seq<Log>) {
    forall i, j :: 0 <= i < j < |logs| ==> logs[i].block <= logs[j].block
  }

  /** How many leading logs lie strictly below a block. */
  function Below(logs: seq<Log>, block: nat): (n: nat)
    ensures n <= |logs|
  {
    if logs == [] || logs[0].block >= block then 0 else 1 + Below(logs[1..], block)
  }

  lemma {:induction false} BelowIs(logs: seq<Log>, block: nat, i: nat)
    requires Ascending(logs) && i < |logs|
    ensures i < Below(logs, block) <==> logs[i].block < block
  {
    if logs[0].block < block && i > 0 {
      BelowIs(logs[1..], block, i - 1);
    }
  }

  /** What the log index serves for a start block: the first PAGE_SIZE logs at or above it. */
  function Page(logs: seq<Log>, block: nat): seq<Log> {
    var n := Below(logs, block);
    logs[n..Min(n + PAGE_SIZE, |logs|)]
  }

  /** `ok` says whether the body's status is "1". */
  datatype Response = Failed | Body(ok: bool, result: seq<Log>)

  predicate IsPage(response: Response) {
    response.Body? && response.ok
  }

  /** A successful page request is answered from a list of logs that is in ascending block order and may
      grow before the next request.  Nothing is known about the body of an unsuccessful one. */
  ghost predicate Served(fetch: (nat, nat) -> Response, chain: nat -> seq<Log>, page: nat, block: nat) {
    && Ascending(chain(page))
    && chain(page) <= chain(page + 1)
    && (IsPage(fetch(page, block)) ==> fetch(page, block).result == Page(chain(page), block))
  }

  ghost predicate Faithful(fetch: (nat, nat) -> Response, chain: nat -> seq<Log>) {
    forall page: nat, block: nat :: Served(fetch, chain, page, block)
  }

  type Pools = map<Bytes20, PoolRecord>

  predicate AllDecode(logs: seq<Log>) {
    forall i :: 0 <= i < |logs| ==> Decode(logs[i]).Ok?
  }

  /** Inserting the decoded logs one after another; the last one of an address stays. */
  function Collect(logs: seq<Log>): Pools
    requires AllDecode(logs)
  {
    if logs == [] then map[]
    else
      var pool := Decode(logs[|logs| - 1]).value;
      Collect(logs[..|logs| - 1])[pool.address := pool]
  }

  lemma {:induction false} CollectConcat(a: seq<Log>, b: seq<Log>)
    requires AllDecode(a) && AllDecode(b)
    ensures AllDecode(a + b)
    ensures Collect(a + b) == Collect(a) + Collect(b)
  {
    if b == [] {
      assert a + b == a;
    } else {
      var n := |b| - 1;
      assert (a + b)[..|a + b| - 1] == a + b[..n];
      CollectConcat(a, b[..n]);
    }
  }

  /** Collecting a stretch again that starts inside what has been collected only extends it. */
  lemma CollectOverlap(logs: seq<Log>, start: nat, seen: nat, end: nat)
    requires start <= seen <= end <= |logs| && AllDecode(logs[..seen]) && AllDecode(logs[start..end])
    ensures AllDecode(logs[..end])
    ensures Collect(logs[..seen]) + Collect(logs[start..end]) == Collect(logs[..end])
  {
    OverlapDecodes(logs, start, seen, end);
    OverlapParts(logs, start, seen, end);
    CollectThrice(logs[..start], logs[start..seen], logs[seen..end]);
  }

  lemma OverlapParts(logs: seq<Log>, start: nat, seen: nat, end: nat)
    requires start <= seen <= end <= |logs|
    ensures logs[..seen] == logs[..start] + logs[start..seen]
    ensures logs[start..end] == logs[start..seen] + logs[seen..end]
    ensures logs[..end] == logs[..start] + logs[start..seen] + logs[seen..end]
  {
  }

  lemma OverlapDecodes(logs: seq<Log>, start: nat, seen: nat, end: nat)
    requires start <= seen <= end <= |logs| && AllDecode(logs[..seen]) && AllDecode(logs[start..end])
    ensures AllDecode(logs[..start]) && AllDecode(logs[start..seen]) && AllDecode(logs[seen..end])
  {
    assert logs[..start] == logs[..seen][..start] && logs[start..seen] == logs[..seen][start..];
    assert logs[seen..end] == logs[start..end][seen - start..];
  }

  lemma CollectThrice(a: seq<Log>, b: seq<Log>, c: seq<Log>)
    requires AllDecode(a) && AllDecode(b) && AllDecode(c)
    ensures AllDecode(a + b) && AllDecode(b + c) && AllDecode(a + b + c)
    ensures Collect(a + b) + Collect(b + c) == Collect(a + b + c)
  {
    CollectConcat(a, b);
    CollectConcat(b, c);
    CollectConcat(a + b, c);
    MergeTwice(Collect(a), Collect(b), Collect(c));
  }

  lemma MergeTwice(a: Pools, b: Pools, c: Pools)
    ensures (a + b) + (b + c) == (a + b) + c
  {
  }

  /** Every pool of the collected logs is there, once, with the record of its latest log. */
  lemma {:induction false} CollectIs(logs: seq<Log>, i: nat)
    requires AllDecode(logs) && i < |logs|
    ensures var address := Decode(logs[i]).value.address;
            && address in Collect(logs)
            && ((forall j :: i < j < |logs| ==> Decode(logs[j]).value.address != address) ==>
                  Collect(logs)[address] == Decode(logs[i]).value)
  {
    if i < |logs| - 1 {
      CollectIs(logs[..|logs| - 1], i);
    }
  }

  lemma {:induction false} CollectOnlyLogs(logs: seq<Log>, address: Bytes20)
    requires AllDecode(logs) && address in Collect(logs)
    ensures Collect(logs)[address].address == address
    ensures exists i :: 0 <= i < |logs| && Decode(logs[i]).value == Collect(logs)[address]
  {
    var n := |logs| - 1;
    var pool := Decode(logs[n]).value;
    if address != pool.address {
      CollectOnlyLogs(logs[..n], address);
      var i :| 0 <= i < n && Decode(logs[..n][i]).value == Collect(logs[..n])[address];
      assert Decode(logs[i]).value == Collect(logs)[address];
    }
  }

  datatype FetchError = RequestFailed | BadStatus | BadLog | NoProgress | TooManyPages

  /** Collecting one more log on top of what was there. */
  lemma CollectNext(pools: Pools, logs: seq<Log>, i: nat)
    requires i < |logs| && AllDecode(logs[..i]) && Decode(logs[i]).Ok?
    ensures AllDecode(logs[..i + 1])
    ensures var pool := Decode(logs[i]).value;
            (pools + Collect(logs[..i]))[pool.address := pool] == pools + Collect(logs[..i + 1])
  {
    assert logs[..i + 1] == logs[..i] + [logs[i]];
    assert (logs[..i] + [logs[i]])[..i] == logs[..i];
  }

  /** The highest block among the start block and the logs. */
  function Highest(fromBlock: nat, logs: seq<Log>): nat {
    if logs == [] then fromBlock
    else
      var before, last := Highest(fromBlock, logs[..|logs| - 1]), logs[|logs| - 1].block;
      if last > before then last else before
  }

  ghost predicate IsHighest(highest: nat, fromBlock: nat, logs: seq<Log>) {
    && highest >= fromBlock
    && (forall i :: 0 <= i < |logs| ==> logs[i].block <= highest)
    && (highest == fromBlock || exists i :: 0 <= i < |logs| && logs[i].block == highest)
  }

  lemma {:induction false} HighestIs(fromBlock: nat, logs: seq<Log>)
    ensures IsHighest(Highest(fromBlock, logs), fromBlock, logs)
  {
    if logs != [] {
      var n := |logs| - 1;
      HighestIs(fromBlock, logs[..n]);
      HighestNext(Highest(fromBlock, logs[..n]), fromBlock, logs, n);
      assert logs[..n + 1] == logs;
    }
  }

  /** One page's logs, in any order, inserted into the map, with the highest block seen. */
  method InsertPage(pools: Pools, result: seq<Log>, fromBlock: nat) returns (r: Option<Pools>, highest: nat)
    ensures r.Some? <==> AllDecode(result)
    ensures r.Some? ==> r.value == pools + Collect(result)
    ensures r.Some? ==> highest == Highest(fromBlock, result) && IsHighest(highest, fromBlock, result)
  {
    var all := pools;
    highest := fromBlock;
    for i := 0 to |result|
      invariant AllDecode(result[..i])
      invariant all == pools + Collect(result[..i])
      invariant highest == Highest(fromBlock, result[..i])
    {
      var log := result[i];
      assert result[..i + 1][..i] == result[..i];
      if log.block > highest {
        highest := log.block;
      }
      var decoded := DecodeRegisteredPool(log);
      if decoded.Err? {
        return None, highest;
      }
      CollectNext(pools, result, i);
      all := all[decoded.value.address := decoded.value];
    }
    assert result[..|result|] == result;
    HighestIs(fromBlock, result);
    return Some(all), highest;
  }

  lemma HighestNext(highest: nat, fromBlock: nat, logs: seq<Log>, i: nat)
    requires i < |logs| && IsHighest(highest, fromBlock, logs[..i])
    ensures IsHighest(if logs[i].block > highest then logs[i].block else highest, fromBlock, logs[..i + 1])
  {
    if logs[i].block > highest {
      assert logs[..i + 1][i].block == logs[i].block;
    } else if highest != fromBlock {
      var k :| 0 <= k < i && logs[..i][k].block == highest;
      assert logs[..i + 1][k].block == highest;
    }
  }

  lemma HighestIsLast(highest: nat, fromBlock: nat, logs: seq<Log>)
    requires IsHighest(highest, fromBlock, logs) && Ascending(logs)
    requires logs != [] && logs[0].block >= fromBlock
    ensures highest == logs[|logs| - 1].block
  {
    assert logs[0].block <= logs[|logs| - 1].block;
  }

  /** Everything strictly below the next request's block has been collected, and at most one page from
      there on. */
  ghost predicate Collected(logs: seq<Log>, fromBlock: nat, seen: nat, pools: Pools) {
    && Below(logs, fromBlock) <= seen <= Below(logs, fromBlock) + PAGE_SIZE
    && seen <= |logs|
    && AllDecode(logs[..seen])
    && pools == Collect(logs[..seen])
  }

  /** How many logs one more page brings to. */
  function PageEnd(logs: seq<Log>, fromBlock: nat): nat {
    Min(Below(logs, fromBlock) + PAGE_SIZE, |logs|)
  }

  lemma PageStartsAt(logs: seq<Log>, fromBlock: nat)
    requires Ascending(logs)
    ensures var page := Page(logs, fromBlock);
            Ascending(page) && forall i :: 0 <= i < |page| ==> page[i].block >= fromBlock
  {
    var page := Page(logs, fromBlock);
    var start := Below(logs, fromBlock);
    forall i | 0 <= i < |page| ensures page[i].block >= fromBlock {
      BelowIs(logs, fromBlock, start + i);
    }
  }

  lemma PageCollected(logs: seq<Log>, fromBlock: nat, seen: nat, pools: Pools)
    requires Collected(logs, fromBlock, seen, pools) && AllDecode(Page(logs, fromBlock))
    ensures Below(logs, fromBlock) <= PageEnd(logs, fromBlock) <= |logs|
    ensures AllDecode(logs[..PageEnd(logs, fromBlock)])
    ensures pools + Collect(Page(logs, fromBlock)) == Collect(logs[..PageEnd(logs, fromBlock)])
  {
    CollectOverlap(logs, Below(logs, fromBlock), seen, PageEnd(logs, fromBlock));
  }

  /** A page that is not full is the last one. */
  lemma ShortPageCompletes(logs: seq<Log>, fromBlock: nat, seen: nat, pools: Pools)
    requires Collected(logs, fromBlock, seen, pools) && AllDecode(Page(logs, fromBlock))
    requires |Page(logs, fromBlock)| < PAGE_SIZE
    ensures AllDecode(logs) && pools + Collect(Page(logs, fromBlock)) == Collect(logs)
  {
    PageCollected(logs, fromBlock, seen, pools);
    assert logs[..PageEnd(logs, fromBlock)] == logs;
  }

  /** The next request starts at or before the end of what has been seen, and not too far before. */
  lemma NextPageOverlaps(logs: seq<Log>, grown: seq<Log>, fromBlock: nat, highest: nat, end: nat)
    requires Ascending(logs) && Ascending(grown) && logs <= grown
    requires end == Below(logs, fromBlock) + PAGE_SIZE <= |logs|
    requires highest == logs[end - 1].block && highest > fromBlock
    ensures Below(grown, highest) <= end <= Below(grown, highest) + PAGE_SIZE
  {
    var start := Below(logs, fromBlock);
    BelowIs(grown, highest, end - 1);
    if start > 0 {
      BelowIs(logs, fromBlock, start - 1);
      BelowIs(grown, highest, start - 1);
    }
  }

  /** A full page that reaches beyond its first block leaves the next request where it must start. */
  lemma FullPageAdvances(logs: seq<Log>, grown: seq<Log>, fromBlock: nat, seen: nat, pools: Pools, highest: nat)
    requires Ascending(logs) && Ascending(grown) && logs <= grown
    requires Collected(logs, fromBlock, seen, pools) && AllDecode(Page(logs, fromBlock))
    requires |Page(logs, fromBlock)| == PAGE_SIZE
    requires highest == Page(logs, fromBlock)[PAGE_SIZE - 1].block && highest > fromBlock
    ensures Collected(grown, highest, PageEnd(logs, fromBlock), pools + Collect(Page(logs, fromBlock)))
  {
    var end := PageEnd(logs, fromBlock);
    PageCollected(logs, fromBlock, seen, pools);
    NextPageOverlaps(logs, grown, fromBlock, highest, end);
    assert grown[..end] == logs[..end];
  }

  /** A whole page of logs in one block: asking again from that block would serve the same page. */
  ghost predicate Crowded(logs: seq<Log>, block: nat) {
    |Page(logs, block)| == PAGE_SIZE && forall i :: 0 <= i < PAGE_SIZE ==> Page(logs, block)[i].block == block
  }

  lemma CrowdedPage(logs: seq<Log>, block: nat)
    requires Ascending(logs) && |Page(logs, block)| == PAGE_SIZE && Page(logs, block)[PAGE_SIZE - 1].block <= block
    ensures Crowded(logs, block)
  {
    PageStartsAt(logs, block);
    var page := Page(logs, block);
    forall i | 0 <= i < PAGE_SIZE ensures page[i].block == block {
      assert page[i].block <= page[PAGE_SIZE - 1].block;
    }
  }

  /** The paging loop from one request on. */
  function Paging(fetch: (nat, nat) -> Response, page: nat, fromBlock: nat, pools: Pools): Result<Pools, FetchError>
    requires 1 <= page <= MAX_PAGES
    decreases MAX_PAGES - page
  {
    var response := fetch(page, fromBlock);
    if response.Failed? then Err(RequestFailed)
    else if !response.ok then
      (if page > 1 && response.result == [] then Ok(pools) else Err(BadStatus))
    else if !AllDecode(response.result) then Err(BadLog)
    else
      var all, highest := pools + Collect(response.result), Highest(fromBlock, response.result);
      if |response.result| < PAGE_SIZE then Ok(all)
      else if highest <= fromBlock then Err(NoProgress)
      else if page == MAX_PAGES then Err(TooManyPages)
      else Paging(fetch, page + 1, highest, all)
  }

  function Discover(fetch: (nat, nat) -> Response): Result<Pools, FetchError> {
    Paging(fetch, 1, 0, map[])
  }

  /** The block that request number `page` asks from, if the answers before it lead to that request. */
  function Asked(fetch: (nat, nat) -> Response, page: nat): Option<nat> {
    if page == 0 then None
    else if page == 1 then Some(0)
    else
      match Asked(fetch, page - 1)
      case None => None
      case Some(block) =>
        var response := fetch(page - 1, block);
        if IsPage(response) && |response.result| >= PAGE_SIZE && Highest(block, response.result) > block
        then Some(Highest(block, response.result)) else None
  }

  /** The pools are exactly what the index registers at the moment of an answered request whose page was
      not full. */
  ghost predicate Complete(fetch: (nat, nat) -> Response, chain: nat -> seq<Log>, page: nat, block: nat, pools: Pools) {
    && 1 <= page <= MAX_PAGES
    && IsPage(fetch(page, block)) && |fetch(page, block).result| < PAGE_SIZE
    && AllDecode(chain(page)) && pools == Collect(chain(page))
  }

  /** Paging stopped at an unsuccessful answer with an empty body, after the first page: the pools are
      exactly what the logs seen so far register. */
  ghost predicate CutShort(fetch: (nat, nat) -> Response, chain: nat -> seq<Log>, page: nat, block: nat, seen: nat, pools: Pools) {
    && 1 < page <= MAX_PAGES
    && fetch(page, block) == Body(false, [])
    && Collected(chain(page), block, seen, pools)
  }

  /** What a result says about the index, at the last request that is sent. */
  ghost predicate Lawful(fetch: (nat, nat) -> Response, chain: nat -> seq<Log>, page: nat, block: nat, r: Result<Pools, FetchError>) {
    && Asked(fetch, page) == Some(block)
    && (r.Ok? ==>
          if fetch(page, block) == Body(false, []) then exists seen: nat :: CutShort(fetch, chain, page, block, seen, r.value)
          else Complete(fetch, chain, page, block, r.value))
    && (r == Err(NoProgress) ==> Crowded(chain(page), block))
  }

  /** A full page either leads to the next request, or is crowded, or is the last one allowed. */
  lemma FullPage(fetch: (nat, nat) -> Response, chain: nat -> seq<Log>, page: nat, fromBlock: nat, seen: nat, pools: Pools)
    requires Served(fetch, chain, page, fromBlock) && Ascending(chain(page + 1)) && 1 <= page <= MAX_PAGES
    requires Collected(chain(page), fromBlock, seen, pools)
    requires IsPage(fetch(page, fromBlock)) && AllDecode(fetch(page, fromBlock).result)
    requires |fetch(page, fromBlock).result| >= PAGE_SIZE
    ensures var result := fetch(page, fromBlock).result; var highest := Highest(fromBlock, result);
            if highest <= fromBlock then Crowded(chain(page), fromBlock)
            else Collected(chain(page + 1), highest, PageEnd(chain(page), fromBlock), pools + Collect(result))
  {
    var logs, result := chain(page), fetch(page, fromBlock).result;
    PageStartsAt(logs, fromBlock);
    var highest := Highest(fromBlock, result);
    HighestIs(fromBlock, result);
    HighestIsLast(highest, fromBlock, result);
    if highest <= fromBlock {
      CrowdedPage(logs, fromBlock);
    } else {
      FullPageAdvances(logs, chain(page + 1), fromBlock, seen, pools, highest);
    }
  }

  /** Does the answer lead to another request? */
  predicate Continues(fetch: (nat, nat) -> Response, page: nat, fromBlock: nat) {
    var response := fetch(page, fromBlock);
    && page < MAX_PAGES && IsPage(response) && AllDecode(response.result)
    && |response.result| >= PAGE_SIZE && Highest(fromBlock, response.result) > fromBlock
  }

  lemma ContinuesOn(fetch: (nat, nat) -> Response, chain: nat -> seq<Log>, page: nat, fromBlock: nat, seen: nat, pools: Pools)
    returns (highest: nat, end: nat, all: Pools)
    requires Faithful(fetch, chain) && 1 <= page <= MAX_PAGES && Asked(fetch, page) == Some(fromBlock)
    requires Collected(chain(page), fromBlock, seen, pools) && Continues(fetch, page, fromBlock)
    ensures Asked(fetch, page + 1) == Some(highest) && Collected(chain(page + 1), highest, end, all)
    ensures page < MAX_PAGES && Paging(fetch, page, fromBlock, pools) == Paging(fetch, page + 1, highest, all)
  {
    assert Served(fetch, chain, page, fromBlock) && Served(fetch, chain, page + 1, fromBlock);
    FullPage(fetch, chain, page, fromBlock, seen, pools);
    var result := fetch(page, fromBlock).result;
    highest, end, all := Highest(fromBlock, result), PageEnd(chain(page), fromBlock), pools + Collect(result);
  }

  lemma LastIsLawful(fetch: (nat, nat) -> Response, chain: nat -> seq<Log>, page: nat, fromBlock: nat, seen: nat, pools: Pools)
    requires Faithful(fetch, chain) && 1 <= page <= MAX_PAGES && Asked(fetch, page) == Some(fromBlock)
    requires Collected(chain(page), fromBlock, seen, pools) && !Continues(fetch, page, fromBlock)
    ensures Lawful(fetch, chain, page, fromBlock, Paging(fetch, page, fromBlock, pools))
  {
    assert Served(fetch, chain, page, fromBlock) && Served(fetch, chain, page + 1, fromBlock);
    var response := fetch(page, fromBlock);
    if response == Body(false, []) && page > 1 {
      assert CutShort(fetch, chain, page, fromBlock, seen, pools);
    } else if IsPage(response) && AllDecode(response.result) {
      if |response.result| < PAGE_SIZE {
        ShortPageCompletes(chain(page), fromBlock, seen, pools);
      } else {
        FullPage(fetch, chain, page, fromBlock, seen, pools);
      }
    }
  }

  lemma {:induction false} PagingIsLawful(fetch: (nat, nat) -> Response, chain: nat -> seq<Log>, page: nat, fromBlock: nat, seen: nat, pools: Pools)
    returns (last: nat, block: nat)
    requires Faithful(fetch, chain) && 1 <= page <= MAX_PAGES && Asked(fetch, page) == Some(fromBlock)
    requires Collected(chain(page), fromBlock, seen, pools)
    ensures page <= last <= MAX_PAGES && Lawful(fetch, chain, last, block, Paging(fetch, page, fromBlock, pools))
    decreases MAX_PAGES - page
  {
    if Continues(fetch, page, fromBlock) {
      var highest, end, all := ContinuesOn(fetch, chain, page, fromBlock, seen, pools);
      last, block := PagingIsLawful(fetch, chain, page + 1, highest, end, all);
    } else {
      LastIsLawful(fetch, chain, page, fromBlock, seen, pools);
      last, block := page, fromBlock;
    }
  }

  /** If paging ends without an error, the result is exactly what all logs of the index register when the
      last request is answered, although pages overlap and the index grows meanwhile; unless that answer
      is unsuccessful and empty, and then it is exactly what the logs seen before it register.  Paging
      stalls only on a block that fills a page by itself. */
  lemma DiscoveryIsLawful(fetch: (nat, nat) -> Response, chain: nat -> seq<Log>)
    requires Faithful(fetch, chain)
    ensures exists page: nat, block: nat :: Lawful(fetch, chain, page, block, Discover(fetch))
  {
    var page, block := PagingIsLawful(fetch, chain, 1, 0, 0, map[]);
    assert Lawful(fetch, chain, page, block, Discover(fetch));
  }

  /** If every answer that paging gets is successful, a result is complete. */
  lemma SuccessfulAnswersComplete(fetch: (nat, nat) -> Response, chain: nat -> seq<Log>)
    requires Faithful(fetch, chain) && Discover(fetch).Ok?
    requires forall page: nat :: Asked(fetch, page).Some? ==> IsPage(fetch(page, Asked(fetch, page).value))
    ensures exists page: nat, block: nat ::
              Asked(fetch, page) == Some(block) && Complete(fetch, chain, page, block, Discover(fetch).value)
  {
    DiscoveryIsLawful(fetch, chain);
    var page: nat, block: nat :| Lawful(fetch, chain, page, block, Discover(fetch));
    assert Complete(fetch, chain, page, block, Discover(fetch).value);
  }

  // ---- When paging succeeds -----------------------------------------------------------------------

  /** The answer ends paging well: a successful one with less than a page of logs, or, after the first request,
      an unsuccessful one with an empty result. */
  predicate Ends(response: Response, page: nat) {
    (IsPage(response) && |response.result| < 1_000) || (page > 1 && response == Body(false, []))
  }

  /** The request is sent, and the logs of a successful answer all decode. */
  predicate Bears(fetch: (nat, nat) -> Response, page: nat) {
    && Asked(fetch, page).Some?
    && var response := fetch(page, Asked(fetch, page).value);
       IsPage(response) ==> forall i :: 0 <= i < |response.result| ==> Decode(response.result[i]).Ok?
  }

  /** From this request on, some request is answered by an end, and all logs up to there decode. */
  ghost predicate EndsWell(fetch: (nat, nat) -> Response, page: nat) {
    exists last: nat :: page <= last <= 100 && EndsAt(fetch, page, last)
  }

  ghost predicate EndsAt(fetch: (nat, nat) -> Response, page: nat, last: nat) {
    && (forall p :: page <= p <= last ==> Bears(fetch, p))
    && Asked(fetch, last).Some? && Ends(fetch(last, Asked(fetch, last).value), last)
  }

  /** Once a request is not sent, no later one is. */
  lemma {:induction false} NotAskedAgain(fetch: (nat, nat) -> Response, page: nat, later: nat)
    requires 1 <= page <= later && Asked(fetch, page).None?
    ensures Asked(fetch, later).None?
    decreases later
  {
    if page < later {
      NotAskedAgain(fetch, page, later - 1);
    }
  }

  /** Where an answer does not lead to another request, paging succeeds if and only if it is an end. */
  lemma LastSucceedsIff(fetch: (nat, nat) -> Response, page: nat, fromBlock: nat, pools: Pools)
    requires 1 <= page <= MAX_PAGES && Asked(fetch, page) == Some(fromBlock) && !Continues(fetch, page, fromBlock)
    ensures Paging(fetch, page, fromBlock, pools).Ok? <==> Bears(fetch, page) && Ends(fetch(page, fromBlock), page)
  {
  }

  lemma LastEndsIff(fetch: (nat, nat) -> Response, page: nat, fromBlock: nat)
    requires 1 <= page <= MAX_PAGES && Asked(fetch, page) == Some(fromBlock) && !Continues(fetch, page, fromBlock)
    ensures EndsWell(fetch, page) <==> Bears(fetch, page) && Ends(fetch(page, fromBlock), page)
  {
    if Bears(fetch, page) && Ends(fetch(page, fromBlock), page) {
      assert EndsAt(fetch, page, page);
    }
    if EndsWell(fetch, page) {
      var last: nat :| page <= last <= 100 && EndsAt(fetch, page, last);
      assert Bears(fetch, page);
      if page < last {
        NotAskedNext(fetch, page, fromBlock);
        NotAskedAgain(fetch, page + 1, last);
      }
    }
  }

  lemma NotAskedNext(fetch: (nat, nat) -> Response, page: nat, fromBlock: nat)
    requires 1 <= page < MAX_PAGES && Asked(fetch, page) == Some(fromBlock) && !Continues(fetch, page, fromBlock)
    requires Bears(fetch, page)
    ensures Asked(fetch, page + 1).None?
  {
  }

  /** Where it does, both are decided from there on. */
  lemma ContinuesSucceedsIff(fetch: (nat, nat) -> Response, page: nat, fromBlock: nat)
    requires 1 <= page <= MAX_PAGES && Asked(fetch, page) == Some(fromBlock) && Continues(fetch, page, fromBlock)
    ensures page < MAX_PAGES && Asked(fetch, page + 1) == Some(Highest(fromBlock, fetch(page, fromBlock).result))
    ensures EndsWell(fetch, page) <==> EndsWell(fetch, page + 1)
  {
    assert Bears(fetch, page);
    if EndsWell(fetch, page) {
      var last: nat :| page <= last <= 100 && EndsAt(fetch, page, last);
      assert EndsAt(fetch, page + 1, last);
    }
    if EndsWell(fetch, page + 1) {
      var last: nat :| page + 1 <= last <= 100 && EndsAt(fetch, page + 1, last);
      assert EndsAt(fetch, page, last);
    }
  }

  lemma {:induction false} PagingSucceedsIff(fetch: (nat, nat) -> Response, page: nat, fromBlock: nat, pools: Pools)
    requires 1 <= page <= MAX_PAGES && Asked(fetch, page) == Some(fromBlock)
    ensures Paging(fetch, page, fromBlock, pools).Ok? <==> EndsWell(fetch, page)
    decreases MAX_PAGES - page
  {
    if Continues(fetch, page, fromBlock) {
      var result := fetch(page, fromBlock).result;
      ContinuesSucceedsIff(fetch, page, fromBlock);
      PagingSucceedsIff(fetch, page + 1, Highest(fromBlock, result), pools + Collect(result));
    } else {
      LastSucceedsIff(fetch, page, fromBlock, pools);
      LastEndsIff(fetch, page, fromBlock);
    }
  }

  /** Discovery succeeds if and only if, within 100 requests, one is sent whose answer is an end, and all logs
      answered up to there decode. */
  lemma DiscoverySucceedsIff(fetch: (nat, nat) -> Response)
    ensures Discover(fetch).Ok? <==> EndsWell(fetch, 1)
  {
    PagingSucceedsIff(fetch, 1, 0, map[]);
  }

  /** The ordinary case: one answer, not full. */
  lemma OneShortPage(fetch: (nat, nat) -> Response, logs: seq<Log>)
    requires fetch(1, 0) == Body(true, logs) && |logs| < 1_000 && AllDecode(logs)
    ensures Discover(fetch) == Ok(Collect(logs))
  {
    assert map[] + Collect(logs) == Collect(logs);
  }

  /** The paging loop.  What it computes obeys `DiscoveryIsLawful` for every index that answers it. */
  method FetchRegisteredPools(fetch: (nat, nat) -> Response, ghost chain: nat -> seq<Log>) returns (r: Result<Pools, FetchError>)
    ensures r == Discover(fetch)
    ensures Faithful(fetch, chain) ==> exists page: nat, block: nat :: Lawful(fetch, chain, page, block, r)
  {
    if Faithful(fetch, chain) {
      DiscoveryIsLawful(fetch, chain);
    }
    var pools: Pools := map[];
    var fromBlock: nat := 0;
    var page := 1;
    while true
      invariant 1 <= page <= MAX_PAGES
      invariant Discover(fetch) == Paging(fetch, page, fromBlock, pools)
      decreases MAX_PAGES - page
    {
      var response := fetch(page, fromBlock);
      if response.Failed? {
        return Err(RequestFailed);
      }
      var result := response.result;
      if !response.ok {
        if page > 1 && result == [] {
          return Ok(pools);
        }
        return Err(BadStatus);
      }
      var inserted, highest := InsertPage(pools, result, fromBlock);
      if inserted.None? {
        return Err(BadLog);
      }
      pools := inserted.value;
      if |result| < PAGE_SIZE {
        return Ok(pools);
      }
      if highest <= fromBlock {
        return Err(NoProgress);
      }
      if page == MAX_PAGES {
        return Err(TooManyPages);
      }
      fromBlock, page := highest, page + 1;
    }
  }

  predicate Registers(log: Log, address: Bytes20) {
    Decode(log).Ok? && Decode(log).value.address == address
  }

  lemma CollectKeys(logs: seq<Log>, address: Bytes20)
    requires AllDecode(logs)
    ensures address in Collect(logs) <==> exists i :: 0 <= i < |logs| && Registers(logs[i], address)
  {
    if address in Collect(logs) {
      CollectOnlyLogs(logs, address);
      var i :| 0 <= i < |logs| && Decode(logs[i]).value == Collect(logs)[address];
      assert Registers(logs[i], address);
    }
    forall i | 0 <= i < |logs| && Registers(logs[i], address) ensures address in Collect(logs) {
      CollectIs(logs, i);
    }
  }

  /** What a result cut short is worth: it lacks exactly the pools that only logs after the last one seen
      register. */
  lemma CutShortMisses(logs: seq<Log>, fromBlock: nat, seen: nat, pools: Pools, address: Bytes20)
    requires Collected(logs, fromBlock, seen, pools) && AllDecode(logs)
    ensures address in Collect(logs) && address !in pools <==>
            && (exists i :: seen <= i < |logs| && Registers(logs[i], address))
            && forall i :: 0 <= i < seen ==> !Registers(logs[i], address)
  {
    CollectKeys(logs, address);
    CollectKeys(logs[..seen], address);
    assert forall i :: 0 <= i < seen ==> logs[..seen][i] == logs[i];
  }

  // ---- A discovery cut short ------------------------------------------------------------------

  /** The registration of pool number i, without tokens, in block i. */
  function Registration(i: nat): Log {
    Log(i, Some(ToBigEndian(i, 32)), ToBigEndian(0, 32))
  }

  lemma RegistrationDecodes(i: nat)
    ensures Decode(Registration(i)) == Ok(PoolRecord(ToBigEndian(i, 20), []))
  {
    WordOfEncoding(0);
    LowBytes(i, 20, 12);
    assert ToBigEndian(0, 32)[..32] == ToBigEndian(0, 32) && ToBigEndian(0, 32)[0..32] == ToBigEndian(0, 32);
  }

  /** One pool more than fits a page. */
  function Registrations(): seq<Log> {
    seq(PAGE_SIZE + 1, i requires 0 <= i => Registration(i))
  }

  function Unchanging(): nat -> seq<Log> {
    (page: nat) => Registrations()
  }

  /** The first request is answered, and the second fails with an empty body. */
  function Interrupted(): (nat, nat) -> Response {
    (page: nat, block: nat) => if page == 1 then Body(true, Page(Registrations(), block)) else Body(false, [])
  }

  lemma RegistrationsDecode()
    ensures Ascending(Registrations()) && AllDecode(Registrations())
    ensures forall i: nat :: i <= PAGE_SIZE ==> Decode(Registrations()[i]).value.address == ToBigEndian(i, 20)
  {
    forall i: nat | i <= PAGE_SIZE
      ensures Decode(Registrations()[i]).Ok? && Decode(Registrations()[i]).value.address == ToBigEndian(i, 20)
    {
      RegistrationDecodes(i);
    }
  }

  lemma FirstPage()
    ensures var logs := Registrations();
            && Page(logs, 0) == logs[..PAGE_SIZE] && AllDecode(logs[..PAGE_SIZE]) && Highest(0, logs[..PAGE_SIZE]) > 0
  {
    var logs := Registrations();
    var first := logs[..PAGE_SIZE];
    RegistrationsDecode();
    assert Below(logs, 0) == 0;
    HighestIs(0, first);
    assert first[PAGE_SIZE - 1].block == PAGE_SIZE - 1;
  }

  /** Paging with a first answer that leads on and a second that cuts it short. */
  lemma PagingStopsSecond(fetch: (nat, nat) -> Response, first: seq<Log>)
    requires fetch(1, 0) == Body(true, first) && AllDecode(first) && |first| == PAGE_SIZE && Highest(0, first) > 0
    requires fetch(2, Highest(0, first)) == Body(false, [])
    ensures Discover(fetch) == Ok(Collect(first))
  {
    assert map[] + Collect(first) == Collect(first);
    assert Paging(fetch, 2, Highest(0, first), Collect(first)) == Ok(Collect(first));
  }

  lemma InterruptedResult()
    ensures AllDecode(Registrations()[..PAGE_SIZE])
    ensures Discover(Interrupted()) == Ok(Collect(Registrations()[..PAGE_SIZE]))
  {
    FirstPage();
    PagingStopsSecond(Interrupted(), Registrations()[..PAGE_SIZE]);
  }

  /** A pool is lost without an error: the index has it, the answers obey it, and the result lacks it. */
  lemma DiscoveryLosesPool()
    ensures var lost := ToBigEndian(PAGE_SIZE, 20);
            && Faithful(Interrupted(), Unchanging())
            && AllDecode(Registrations()) && lost in Collect(Registrations())
            && Discover(Interrupted()).Ok? && lost !in Discover(Interrupted()).value
  {
    var logs, lost := Registrations(), ToBigEndian(PAGE_SIZE, 20);
    RegistrationsDecode();
    InterruptedResult();
    CollectKeys(logs, lost);
    assert Registers(logs[PAGE_SIZE], lost);
    CollectKeys(logs[..PAGE_SIZE], lost);
    forall i: nat | i < PAGE_SIZE ensures !Registers(logs[..PAGE_SIZE][i], lost) {
      assert logs[..PAGE_SIZE][i] == logs[i];
      SmallNumbersDiffer(i);
    }
    forall page: nat, block: nat ensures Served(Interrupted(), Unchanging(), page, block) {
    }
  }

  lemma SmallNumbersDiffer(i: nat)
    requires i < PAGE_SIZE
    ensures ToBigEndian(i, 20) != ToBigEndian(PAGE_SIZE, 20)
  {
    assert Pow256(2) == 65536;
    Pow256Add(2, 18);
    assert Pow256(18) >= 1;
    assert 65536 * Pow256(18) >= 65536;
    BigEndianRoundTrip(i, 20);
    BigEndianRoundTrip(PAGE_SIZE, 20);
  }
}
