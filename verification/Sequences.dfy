// The per-request record that the scheduler, the pool, the prefix cache and the worker share.
module Sequences {
  import opened Common
  import opened KvCache
  import opened LanguageModel
  import opened Generation

  type Id = nat

  type Key = seq<Token>

  datatype Status = Waiting | Prefilling | Decoding | Finished | Aborted | Errored

  // What travels on a sequence's token queue: tokens, then one None.
  datatype Item = Push(token: Token) | NoneItem

  // `releases` and `signals` count how often the sequence gave its memory back and how often its
  // finished event was set; the source keeps no such counters.
  datatype Sequence = Sequence(
    id: Id,
    req: Request,
    status: Status,
    output: seq<Token>,
    kv: Option<Cache>,
    lastToken: Option<Token>,
    reason: Option<Reason>,
    result: Option<Generation>,
    blockIds: seq<nat>,
    ownedBlockIds: seq<nat>,
    prefixKey: Option<Key>,
    prefixTokens: nat,
    prefixKv: Option<Cache>,
    prefixLogits: Option<Logits>,
    abortRequested: bool,
    pushed: seq<Item>,
    releases: nat,
    signals: nat)

  function NewSequence(id: Id, req: Request): Sequence {
    Sequence(id, req, Waiting, [], None, None, None, None, [], [], None, 0, None, None, false, [], 0, 0)
  }

  function ReservationTokens(q: Sequence): int {
    |q.req.prompt| + q.req.maxTokens
  }

  predicate Terminal(status: Status) {
    status.Finished? || status.Aborted? || status.Errored?
  }

  predicate WantsAbort(q: Sequence) {
    q.abortRequested || q.status.Aborted?
  }

  function Tokens(output: seq<Token>): seq<Item> {
    seq(|output|, i requires 0 <= i < |output| => Push(output[i]))
  }
}
