// The per-request record as the source keeps it: one object whose fields the scheduler, the pool,
// the prefix cache and the worker update in place. View is its value.
module SequenceRecord {
  import opened Common
  import opened KvCache
  import opened LanguageModel
  import opened Generation
  import opened Sequences

  class Record {
    const id: Id
    const req: Request
    var status: Status
    var output: seq<Token>
    var kv: Option<Cache>
    var lastToken: Option<Token>
    var reason: Option<Reason>
    var result: Option<Generation>
    var blockIds: seq<nat>
    var ownedBlockIds: seq<nat>
    var prefixKey: Option<Key>
    var prefixTokens: nat
    var prefixKv: Option<Cache>
    var prefixLogits: Option<Logits>
    var abortRequested: bool
    var pushed: seq<Item>
    var releases: nat
    var signals: nat

    function View(): Sequence
      reads this
    {
      Sequence(id, req, status, output, kv, lastToken, reason, result, blockIds, ownedBlockIds, prefixKey, prefixTokens,
               prefixKv, prefixLogits, abortRequested, pushed, releases, signals)
    }

    constructor (id: Id, req: Request)
      ensures View() == NewSequence(id, req)
    {
      this.id, this.req, status := id, req, Waiting;
      output, kv, lastToken, reason, result := [], None, None, None, None;
      blockIds, ownedBlockIds := [], [];
      prefixKey, prefixTokens, prefixKv, prefixLogits := None, 0, None, None;
      abortRequested, pushed, releases, signals := false, [], 0, 0;
    }

    // Any thread may raise the flag at any time; nothing else of the record moves.
    method RequestAbort()
      modifies this`abortRequested
      ensures View() == old(View()).(abortRequested := true)
    {
      abortRequested := true;
    }
  }
}
