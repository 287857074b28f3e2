/**
 * The transaction orchestrator. It dispatches keyword-extraction and
 * graph-code prompts to a language-model backend, tracks the in-flight
 * transactions, chains a finished keyword transaction into its graph-code
 * prompt under the same id, hands a terminal result out once, and evicts
 * transactions older than the timeout.
 *
 * The five concurrent maps of the service (pending keyword transactions,
 * pending graph-code transactions, finished transactions, prepared prompts
 * and backend handles) are kept as one map from the transaction id to a
 * record whose slot says which of them hold the id; the five maps are views
 * of it (`PendingKeyword`, `PendingGraphCode`, `Finished`, `Prepared`,
 * `Handles`).
 *
 * The backend is an oracle: `submit` yields a handle, `poll` yields the
 * parsed reply or None while the response text is still blank. The clock,
 * the random transaction ids and JSON serialisation come in as parameters.
 */
module Orchestrator {
  import opened Base
  import opened GraphCodes
  import opened Prompts

  type TxId = string
  type Handle = string

  /** A backend response parsed from JSON; every field may be null. */
  datatype Reply = Reply(
    dictionary: Option<seq<string>>,
    matrix: Option<Matrix>,
    error: Option<string>,
    description: Option<string>)

  /** The language-model client of a transaction's model. */
  datatype Backend = Backend(
    submit: (ModelLiteral, string) -> Handle,
    poll: (ModelLiteral, Handle) -> Option<Reply>)

  /** The two stages a transaction goes through. */
  datatype Stage = KeywordStage | GraphCodeStage

  /** One prompt handed to the backend, for the transaction `id`. */
  datatype Submission = Submission(id: TxId, stage: Stage, model: ModelLiteral, prompt: string, handle: Handle)

  /** Why a dispatch was refused. */
  datatype DispatchError = InvalidFollowUp

  /** The three maps of the service that hold result entities. */
  datatype Table = FinishedTable | PendingKeywordTable | PendingGraphCodeTable

  /**
   * Where a transaction is: waiting for keywords (with its backend handle
   * and the builder of its graph-code prompt), waiting for the graph code
   * (with its handle), or finished and cached until it is fetched.
   */
  datatype Slot =
    | AwaitingKeywords(handle: Handle, builder: PromptBuilder)
    | AwaitingGraphCode(handle: Handle)
    | Cached

  /** One tracked transaction: its shared result entity and its slot. */
  datatype Tx = Tx(entity: GraphCode, slot: Slot)

  function TableOf(s: Slot): Table
  {
    match s
    case AwaitingKeywords(_, _) => PendingKeywordTable
    case AwaitingGraphCode(_) => PendingGraphCodeTable
    case Cached => FinishedTable
  }

  /** A keyword reply without error text chains into the graph-code stage. */
  predicate ChainedReply(r: Option<Reply>)
  {
    r.Some? && !HasText(r.value.error)
  }

  /** The entity records the error of a keyword reply. */
  ghost predicate KeywordFailed(g: GraphCode, r: Reply)
    reads g
  {
    g.Valid() && g.state == Error && g.error == r.error && g.description == r.description
  }

  /**
   * The entity holds what a graph-code reply dictates: its error when it has
   * error text, otherwise the payload if it passes the structural check, and
   * otherwise ERROR_DEFAULT.
   */
  ghost predicate Settled(g: GraphCode, r: Reply)
    reads g
  {
    && g.Valid()
    && if HasText(r.error) then
         g.state == Error && g.error == r.error && g.description == r.description
         && g.dictionary.None? && g.matrix.None?
       else if VerifyDictionaryAndMatrix(r.dictionary, r.matrix) then
         g.state == Finished && g.dictionary == r.dictionary && g.matrix == r.matrix
         && g.description == r.description && g.error.None?
       else
         g.state == Error && g.error == Some(ERROR_DEFAULT) && g.description.None?
         && g.dictionary.None? && g.matrix.None?
  }

  /** The objects of a transaction belong to the orchestrator. */
  ghost predicate Owned(tx: Tx, repr: set<object>)
  {
    tx.entity in repr && (tx.slot.AwaitingKeywords? ==> tx.slot.builder in repr)
  }

  /** A tracked entity belongs to `id` alone; it is PENDING while waiting and ERROR once cached. */
  ghost predicate EntityHealthy(id: TxId, g: GraphCode, cached: bool, owner: map<GraphCode, TxId>)
    reads g
  {
    && g in owner && owner[g] == id && g.dictionary.None? && g.matrix.None?
    && if cached then g.state == Error && g.error.Some?
       else g.state == Pending && g.model.Some? && g.error.None? && g.description.None?
  }

  /** A waiting builder belongs to `id` alone, misses only its keywords and holds the text recorded for `id`. */
  ghost predicate BuilderHealthy(id: TxId, b: PromptBuilder, builderOwner: map<PromptBuilder, TxId>, texts: map<TxId, string>)
    reads b
  {
    b in builderOwner && builderOwner[b] == id && Keywords in b.required && b.leftover == [Keywords]
    && id in texts && b.prompt == texts[id]
  }

  /** The entities and builders of the transactions of `txs` that wait for keywords. */
  ghost function KeywordObjectsOf(txs: map<TxId, Tx>): set<object>
  {
    (set id | id in txs && txs[id].slot.AwaitingKeywords? :: txs[id].entity as object)
    + (set id | id in txs && txs[id].slot.AwaitingKeywords? :: txs[id].slot.builder as object)
  }

  /** Dropping transactions, and keeping the others as they are, drops objects only. */
  lemma KeywordObjectsShrink(a: map<TxId, Tx>, b: map<TxId, Tx>)
    requires forall id :: id in a ==> id in b && a[id] == b[id]
    ensures KeywordObjectsOf(a) <= KeywordObjectsOf(b)
  {
  }

  class AsyncLLMService {
    const timeout: int
    const toJson: seq<string> -> string
    const notAvailable: GraphCode

    var transactions: map<TxId, Tx>

    /** Every prompt sent to the backend so far. */
    ghost var submissions: set<Submission>
    /** The objects this orchestrator owns. */
    ghost var Repr: set<object>
    /** The id each entity and builder belongs to: no object serves two ids. */
    ghost var owner: map<GraphCode, TxId>
    ghost var builderOwner: map<PromptBuilder, TxId>
    /** The text of each waiting builder, as it stands before the keywords are filled in. */
    ghost var texts: map<TxId, string>

    /** The orchestrator invariant, for every transaction. */
    ghost predicate Valid()
      reads this, Repr
    {
      ValidExcept(None)
    }

    /** The invariant for every transaction but `except`. */
    ghost predicate ValidExcept(except: Option<TxId>)
      reads this, Repr
    {
      && this in Repr && notAvailable in Repr
      && notAvailable.Valid() && notAvailable.state == NotAvailable
      && forall id :: id in transactions && Some(id) != except ==>
           && Owned(transactions[id], Repr)
           && EntityHealthy(id, transactions[id].entity, transactions[id].slot.Cached?, owner)
           && (transactions[id].slot.AwaitingKeywords? ==> BuilderHealthy(id, transactions[id].slot.builder, builderOwner, texts))
    }

    /** `pendingKeywordTransactions` */
    function PendingKeyword(): map<TxId, GraphCode>
      reads this
    {
      map id | id in transactions && transactions[id].slot.AwaitingKeywords? :: transactions[id].entity
    }

    /** `pendingGraphCodeTransactions` */
    function PendingGraphCode(): map<TxId, GraphCode>
      reads this
    {
      map id | id in transactions && transactions[id].slot.AwaitingGraphCode? :: transactions[id].entity
    }

    /** `finishedTransactions` */
    function Finished(): map<TxId, GraphCode>
      reads this
    {
      map id | id in transactions && transactions[id].slot.Cached? :: transactions[id].entity
    }

    /** `preparedPrompts` */
    function Prepared(): map<TxId, PromptBuilder>
      reads this
    {
      map id | id in transactions && transactions[id].slot.AwaitingKeywords? :: transactions[id].slot.builder
    }

    /** `transactionMapping` */
    function Handles(): map<TxId, Handle>
      reads this
    {
      map id | id in transactions && !transactions[id].slot.Cached? :: transactions[id].slot.handle
    }

    /** The eviction test of `removeTimeouts`. */
    predicate Expired(g: GraphCode, now: int)
    {
      g.start + timeout < now
    }

    /** `removeTimeouts(t, now)` evicts `tx`. */
    predicate Evicts(t: Table, tx: Tx, now: int)
    {
      TableOf(tx.slot) == t && Expired(tx.entity, now)
    }

    /** `gson.toJson` of the keyword dictionary (null becomes "null"). */
    function KeywordsJson(dict: Option<seq<string>>): string
    {
      if dict.None? then "null" else toJson(dict.value)
    }

    /** The graph-code prompt a builder yields once the keywords are in. */
    function ChainedPrompt(text: string, r: Reply): string
    {
      ReplaceAll(text, Token(Keywords), KeywordsJson(r.dictionary))
    }

    /** The entity a lookup of `id` may finalise. */
    function PollTarget(id: TxId): set<GraphCode>
      reads this
    {
      if id in transactions && transactions[id].slot.AwaitingGraphCode? then {transactions[id].entity} else {}
    }

    /** The objects a keyword poll of `id` may change: its entity and builder while it waits for keywords. */
    function KeywordTargets(id: TxId): set<object>
      reads this
    {
      if id in transactions && transactions[id].slot.AwaitingKeywords?
      then {transactions[id].entity, transactions[id].slot.builder} else {}
    }

    /** The transactions of `txs` that outlive the timeout at `now`. */
    ghost function Survivors(txs: map<TxId, Tx>, now: int): map<TxId, Tx>
    {
      map id | id in txs && !Expired(txs[id].entity, now) :: txs[id]
    }

    /** What one keyword poll does to a waiting keyword transaction. */
    ghost function KeywordStep(tx: Tx, prompt: string, llm: Backend): Tx
      requires tx.slot.AwaitingKeywords? && tx.entity.model.Some?
    {
      var reply := llm.poll(tx.entity.model.value, tx.slot.handle);
      if reply.None? then tx
      else if HasText(reply.value.error) then Tx(tx.entity, Cached)
      else Tx(tx.entity, AwaitingGraphCode(llm.submit(tx.entity.model.value, ChainedPrompt(prompt, reply.value))))
    }

    /** What the keyword pass does to the transaction `id`: only waiting keyword transactions move. */
    ghost function KeywordOutcome(id: TxId, tx: Tx, prompts: map<TxId, string>, llm: Backend): Tx
    {
      if tx.slot.AwaitingKeywords? && tx.entity.model.Some? && id in prompts
      then KeywordStep(tx, prompts[id], llm) else tx
    }

    /** The transactions once the keyword pass has treated every id of `txs` outside `pending`. */
    ghost function PartialPass(txs: map<TxId, Tx>, prompts: map<TxId, string>, pending: set<TxId>, llm: Backend): map<TxId, Tx>
    {
      map id | id in txs :: if id in pending then txs[id] else KeywordOutcome(id, txs[id], prompts, llm)
    }

    /** The transactions after one keyword pass over `txs`. */
    ghost function KeywordPass(txs: map<TxId, Tx>, prompts: map<TxId, string>, llm: Backend): map<TxId, Tx>
    {
      PartialPass(txs, prompts, {}, llm)
    }

    /** Before the pass nothing has moved. */
    lemma PartialPassStart(txs: map<TxId, Tx>, prompts: map<TxId, string>, llm: Backend)
      ensures PartialPass(txs, prompts, txs.Keys, llm) == txs
    {
    }

    /** Treating one more id moves exactly that transaction. */
    lemma PartialPassStep(txs: map<TxId, Tx>, prompts: map<TxId, string>, pending: set<TxId>, id: TxId, llm: Backend)
      requires id in txs && id in pending
      ensures PartialPass(txs, prompts, pending - {id}, llm)
           == PartialPass(txs, prompts, pending, llm)[id := KeywordOutcome(id, txs[id], prompts, llm)]
    {
    }

    /** A keyword poll of `tx` gets a reply that chains into the graph-code stage. */
    ghost predicate Chains(tx: Tx, llm: Backend)
    {
      tx.slot.AwaitingKeywords? && tx.entity.model.Some? && ChainedReply(llm.poll(tx.entity.model.value, tx.slot.handle))
    }

    /** The graph-code prompt a chaining keyword poll of `tx` sends. */
    ghost function ChainedSubmission(id: TxId, tx: Tx, prompt: string, llm: Backend): Submission
      requires Chains(tx, llm)
    {
      var m := tx.entity.model.value;
      var text := ChainedPrompt(prompt, llm.poll(m, tx.slot.handle).value);
      Submission(id, GraphCodeStage, m, text, llm.submit(m, text))
    }

    /** The graph-code prompts the keyword pass sends for the ids of `txs` outside `pending`. */
    ghost function ChainedSubmissions(txs: map<TxId, Tx>, prompts: map<TxId, string>, pending: set<TxId>, llm: Backend): set<Submission>
    {
      set id | id in txs && id !in pending && id in prompts && Chains(txs[id], llm) :: ChainedSubmission(id, txs[id], prompts[id], llm)
    }

    /** The graph-code prompts a whole keyword pass over `txs` sends. */
    ghost function KeywordPassSubmissions(txs: map<TxId, Tx>, prompts: map<TxId, string>, llm: Backend): set<Submission>
    {
      ChainedSubmissions(txs, prompts, {}, llm)
    }

    /** The graph-code prompt the keyword poll of `id` sends, if any. */
    ghost function StepSubmission(id: TxId, txs: map<TxId, Tx>, prompts: map<TxId, string>, llm: Backend): set<Submission>
      requires id in txs
    {
      if id in prompts && Chains(txs[id], llm) then {ChainedSubmission(id, txs[id], prompts[id], llm)} else {}
    }

    /** Treating one more id adds exactly its own submission to the log `sub`. */
    lemma ChainedSubmissionsGrow(sub: set<Submission>, txs: map<TxId, Tx>, prompts: map<TxId, string>, pending: set<TxId>, id: TxId, llm: Backend)
      requires id in txs && id in pending
      ensures sub + ChainedSubmissions(txs, prompts, pending - {id}, llm)
           == sub + ChainedSubmissions(txs, prompts, pending, llm) + StepSubmission(id, txs, prompts, llm)
    {
    }

    /** A new orchestrator with nothing tracked; `timeout` is in milliseconds. */
    constructor (timeout: int, toJson: seq<string> -> string, now: int)
      ensures Valid() && fresh(Repr)
      ensures this.timeout == timeout && this.toJson == toJson
      ensures transactions == map[] && submissions == {}
    {
      this.timeout := timeout;
      this.toJson := toJson;
      notAvailable := new GraphCode.NotAvailableGC(now);
      transactions := map[];
      new;
      submissions := {};
      owner, builderOwner, texts := map[], map[], map[];
      Repr := {this, notAvailable};
    }

    /** Under the invariant, the five maps of the service relate as the source relies on. */
    lemma MapsAgree()
      requires Valid()
      ensures PendingKeyword().Keys !! PendingGraphCode().Keys
      ensures PendingKeyword().Keys !! Finished().Keys && PendingGraphCode().Keys !! Finished().Keys
      ensures Prepared().Keys == PendingKeyword().Keys
      ensures Handles().Keys == PendingKeyword().Keys + PendingGraphCode().Keys
      ensures forall id :: id in PendingKeyword() ==> PendingKeyword()[id].state == Pending
      ensures forall id :: id in PendingGraphCode() ==> PendingGraphCode()[id].state == Pending
      ensures forall id :: id in Finished() ==> Finished()[id].state == Error
      ensures forall id :: id in Prepared() ==> Prepared()[id].leftover == [Keywords]
    {
    }

    /**
     * Chaining the waiting keyword transaction `id` moves it from the keyword
     * map to the graph-code map. In the order written, the handle map then no
     * longer covers the two pending maps (the chained id has no handle, so its
     * reply can never be polled); in the intended order it covers them still.
     */
    lemma AsWrittenChainLosesHandle(id: TxId, h: Handle)
      requires Valid() && id in PendingKeyword()
      ensures var pk := PendingKeyword() - {id};
              var pg := PendingGraphCode()[id := PendingKeyword()[id]];
              && id in pg && id !in ChainedHandlesAsWritten(Handles(), id, h)
              && ChainedHandlesAsWritten(Handles(), id, h).Keys != pk.Keys + pg.Keys
              && ChainedHandles(Handles(), id, h).Keys == pk.Keys + pg.Keys
    {
      MapsAgree();
    }

    /**
     * `addKeywordPrompt`: accepts only a follow-up builder whose outstanding
     * list is exactly [KEYWORDS]; then submits the keyword prompt and tracks
     * a pending entity, the handle and the builder under the fresh id.
     */
    method AddKeywordPrompt(prompt: string, model: ModelLiteral, builder: PromptBuilder, id: TxId, now: int, llm: Backend)
      returns (r: Result<TxId, DispatchError>)
      requires Valid() && builder.Valid() && builder !in Repr && id !in transactions
      modifies this
      ensures Valid() && fresh(Repr - old(Repr) - {builder})
      ensures r.Success? <==> builder.leftover == [Keywords]
      ensures r.Failure? ==> r.error == InvalidFollowUp && transactions == old(transactions) && submissions == old(submissions)
      ensures r.Success? ==>
        && r.value == id && id in transactions
        && var g := transactions[id].entity;
           && fresh(g) && g.state == Pending && g.model == Some(model) && g.start == now
           && transactions == old(transactions)[id := Tx(g, AwaitingKeywords(llm.submit(model, prompt), builder))]
           && submissions == old(submissions) + {Submission(id, KeywordStage, model, prompt, llm.submit(model, prompt))}
    {
      var leftover := builder.GetLeftoverReplacements();
      if |leftover| != 1 || Keywords !in leftover {
        return Failure(InvalidFollowUp);
      }
      assert leftover == [Keywords] && Keywords in multiset(builder.leftover);
      var handle := llm.submit(model, prompt);
      submissions := submissions + {Submission(id, KeywordStage, model, prompt, handle)};
      var g := new GraphCode.PendingGC(model, now);
      TrackKeyword(id, g, builder, handle);
      return Success(id);
    }

    /** `addGCPrompt(prompt, model)`: dispatches a graph-code prompt under a fresh id. */
    method AddGCPrompt(prompt: string, model: ModelLiteral, id: TxId, now: int, llm: Backend) returns (r: TxId)
      requires Valid() && id !in transactions
      modifies this
      ensures Valid() && fresh(Repr - old(Repr))
      ensures r == id && id in transactions
      ensures var g := transactions[id].entity;
        && fresh(g) && g.state == Pending && g.model == Some(model) && g.start == now
        && transactions == old(transactions)[id := Tx(g, AwaitingGraphCode(llm.submit(model, prompt)))]
        && submissions == old(submissions) + {Submission(id, GraphCodeStage, model, prompt, llm.submit(model, prompt))}
    {
      var g := new GraphCode.PendingGC(model, now);
      Adopt(g, id);
      r := DispatchGraphCode(prompt, g, id, llm);
    }

    /**
     * The private `addGCPrompt(prompt, graphCode, id)`: submits the prompt for
     * the entity's model and tracks the entity as a pending graph-code
     * transaction under `id`.
     */
    method DispatchGraphCode(prompt: string, g: GraphCode, id: TxId, llm: Backend) returns (r: TxId)
      requires ValidExcept(Some(id))
      requires g in Repr && g in owner && owner[g] == id && g.Valid() && g.state == Pending
      modifies this`transactions, this`submissions
      ensures Valid() && r == id
      ensures transactions == old(transactions)[id := Tx(g, AwaitingGraphCode(llm.submit(g.model.value, prompt)))]
      ensures submissions == old(submissions) + {Submission(id, GraphCodeStage, g.model.value, prompt, llm.submit(g.model.value, prompt))}
    {
      var handle := llm.submit(g.model.value, prompt);
      submissions := submissions + {Submission(id, GraphCodeStage, g.model.value, prompt, handle)};
      Track(id, Tx(g, AwaitingGraphCode(handle)));
      return id;
    }

    /** Takes a new entity into the orchestrator's ownership, for `id`. */
    ghost method Adopt(g: GraphCode, id: TxId)
      requires Valid() && g !in Repr
      modifies this`owner, this`Repr
      ensures Valid() && owner == old(owner)[g := id] && Repr == old(Repr) + {g}
    {
      owner := owner[g := id];
      Repr := Repr + {g};
    }

    /**
     * The three `put(id, ...)` of `addKeywordPrompt`: takes the new entity and
     * the caller's builder into the orchestrator's ownership and tracks them
     * as a waiting keyword transaction under `id`.
     */
    method TrackKeyword(id: TxId, g: GraphCode, builder: PromptBuilder, handle: Handle)
      requires Valid() && id !in transactions && g !in Repr && builder !in Repr
      requires g.Valid() && g.state == Pending
      requires Keywords in builder.required && builder.leftover == [Keywords]
      modifies this`transactions, this`owner, this`builderOwner, this`texts, this`Repr
      ensures Valid() && Repr == old(Repr) + {g, builder}
      ensures transactions == old(transactions)[id := Tx(g, AwaitingKeywords(handle, builder))]
    {
      owner := owner[g := id];
      builderOwner := builderOwner[builder := id];
      texts := texts[id := builder.prompt];
      Repr := Repr + {g, builder};
      transactions := transactions[id := Tx(g, AwaitingKeywords(handle, builder))];
    }

    /** `put(id, ...)` on the maps of the service: starts tracking a waiting transaction. */
    method Track(id: TxId, tx: Tx)
      requires ValidExcept(Some(id)) && !tx.slot.Cached?
      requires Owned(tx, Repr) && tx.entity in owner && owner[tx.entity] == id
      requires tx.entity.Valid() && tx.entity.state == Pending
      requires !tx.slot.AwaitingKeywords?
      modifies this`transactions
      ensures Valid() && transactions == old(transactions)[id := tx]
    {
      transactions := transactions[id := tx];
    }

    /** `remove(id)` on the maps of the service: stops tracking a transaction. */
    method Forget(id: TxId)
      requires ValidExcept(Some(id))
      modifies this`transactions
      ensures Valid() && transactions == old(transactions) - {id}
    {
      transactions := transactions - {id};
    }

    /**
     * `getGraphCode`: a cached result is handed out and forgotten; a pending
     * keyword transaction is returned as it is; a pending graph-code
     * transaction is polled and, once the backend answered, finalised and
     * forgotten; an unknown id yields the NOT_AVAILABLE sentinel. A terminal
     * result is therefore handed out at most once.
     */
    method GetGraphCode(id: TxId, llm: Backend) returns (g: GraphCode)
      requires Valid()
      modifies this, PollTarget(id)
      ensures Valid() && Repr == old(Repr) && submissions == old(submissions) && g.Valid()
      ensures id !in old(transactions) ==> g == notAvailable && transactions == old(transactions)
      ensures id in old(transactions) ==> g == old(transactions[id].entity)
      ensures id in old(transactions) && old(transactions[id].slot).Cached? ==>
        g.state == Error && transactions == old(transactions) - {id}
      ensures id in old(transactions) && old(transactions[id].slot).AwaitingKeywords? ==>
        g.state == Pending && transactions == old(transactions)
      ensures id in old(transactions) && old(transactions[id].slot).AwaitingGraphCode? ==>
        var reply := llm.poll(g.model.value, old(transactions[id].slot.handle));
        if reply.None? then g.state == Pending && transactions == old(transactions)
        else Settled(g, reply.value) && transactions == old(transactions) - {id}
      ensures g.state != Pending ==> id !in transactions
    {
      if id in transactions && transactions[id].slot.Cached? {
        g := transactions[id].entity;
        Forget(id);
        return;
      }
      if id in transactions && transactions[id].slot.AwaitingKeywords? {
        return transactions[id].entity;
      }
      var pending := CheckPendingGraphCodeTransaction(id, llm);
      if pending.None? {
        return notAvailable;
      }
      return pending.value;
    }

    /**
     * `checkPendingGraphCodeTransaction`: None for an id that is not a
     * pending graph-code transaction; otherwise the entity, finalised from the
     * reply and no longer tracked once the backend has answered.
     */
    method CheckPendingGraphCodeTransaction(id: TxId, llm: Backend) returns (res: Option<GraphCode>)
      requires Valid()
      modifies this, PollTarget(id)
      ensures Valid() && Repr == old(Repr) && submissions == old(submissions)
      ensures !(id in old(transactions) && old(transactions[id].slot).AwaitingGraphCode?) ==>
        res.None? && transactions == old(transactions)
      ensures id in old(transactions) && old(transactions[id].slot).AwaitingGraphCode? ==>
        && res == Some(old(transactions[id].entity))
        && var g := res.value;
           var reply := llm.poll(g.model.value, old(transactions[id].slot.handle));
           if reply.None? then g.Valid() && g.state == Pending && transactions == old(transactions)
           else Settled(g, reply.value) && transactions == old(transactions) - {id}
    {
      if !(id in transactions && transactions[id].slot.AwaitingGraphCode?) {
        return None;
      }
      var g := transactions[id].entity;
      var reply := llm.poll(g.model.value, transactions[id].slot.handle);
      if reply.None? {
        return Some(g);
      }
      var r := reply.value;
      var ok;
      if HasText(r.error) {
        ok := g.MarkError(r.error.value, r.description);
      } else {
        ok := g.MarkFinished(r.dictionary, r.matrix, r.description);
      }
      Forget(id);
      return Some(g);
    }

    /**
     * `removeTimeouts(mapping, now)`: removes exactly the transactions of one
     * map whose entity started more than `timeout` before `now` (with their
     * handles and builders); everything else stays.
     */
    method RemoveTimeouts(t: Table, now: int)
      requires Valid()
      modifies this`transactions
      ensures Valid()
      ensures forall id :: id in transactions ==> id in old(transactions) && transactions[id] == old(transactions)[id]
      ensures forall id :: id in old(transactions) ==> (id in transactions <==> !Evicts(t, old(transactions)[id], now))
    {
      ghost var txs0 := transactions;
      var todo := transactions.Keys;
      while todo != {}
        invariant Valid()
        invariant todo <= txs0.Keys
        invariant forall id :: id in transactions ==> id in txs0 && transactions[id] == txs0[id]
        invariant forall id :: id in txs0 ==> (id in transactions <==> id in todo || !Evicts(t, txs0[id], now))
        decreases todo
      {
        var id :| id in todo;
        EvictIfExpired(id, t, now);
        todo := todo - {id};
      }
    }

    /** One entry of the `removeTimeouts` iteration. */
    method EvictIfExpired(id: TxId, t: Table, now: int)
      requires Valid() && id in transactions
      modifies this`transactions
      ensures Valid()
      ensures transactions == if Evicts(t, old(transactions[id]), now) then old(transactions) - {id} else old(transactions)
    {
      if Evicts(t, transactions[id], now) {
        Forget(id);
      }
    }

    /**
     * `checkKeywordTransactions`: polls every pending keyword transaction.
     * Without a reply it stays; a reply with error text marks the entity
     * ERROR and caches it; any other reply fills KEYWORDS into the builder
     * and re-dispatches the same entity, under the same id, as a graph-code
     * transaction.
     */
    method CheckKeywordTransactions(llm: Backend)
      requires Valid()
      modifies this`transactions, this`submissions, KeywordObjectsOf(transactions)
      ensures Valid()
      ensures transactions == KeywordPass(old(transactions), old(texts), llm)
      ensures submissions == old(submissions) + KeywordPassSubmissions(old(transactions), old(texts), llm)
      ensures forall id :: id in old(transactions) && !old(transactions[id].slot).AwaitingKeywords? ==>
        unchanged(old(transactions[id].entity))
    {
      ghost var txs0 := transactions;
      ghost var prompts := texts;
      ghost var sub0 := submissions;
      ghost var frame := KeywordObjectsOf(txs0);
      OthersOutsideKeywordObjects();
      var todo := transactions.Keys;
      PartialPassStart(txs0, prompts, llm);
      while todo != {}
        invariant Valid()
        invariant todo <= txs0.Keys
        invariant transactions == PartialPass(txs0, prompts, todo, llm)
        invariant submissions == sub0 + ChainedSubmissions(txs0, prompts, todo, llm)
        decreases todo
      {
        var id :| id in todo;
        assert KeywordTargets(id) <= frame;
        AdvanceKeyword(id, llm, txs0, prompts, todo);
        PartialPassStep(txs0, prompts, todo, id, llm);
        ChainedSubmissionsGrow(sub0, txs0, prompts, todo, id, llm);
        todo := todo - {id};
      }
    }

    /** No entity belongs to two transactions, so one not waiting for keywords is outside the keyword objects. */
    lemma OthersOutsideKeywordObjects()
      requires Valid()
      ensures forall id :: id in transactions && !transactions[id].slot.AwaitingKeywords? ==>
        transactions[id].entity !in KeywordObjectsOf(transactions)
    {
      forall id | id in transactions && !transactions[id].slot.AwaitingKeywords?
        ensures transactions[id].entity !in KeywordObjectsOf(transactions)
      {
        var g := transactions[id].entity;
        assert owner[g] == id;
      }
    }

    /** One step of `checkKeywordTransactions`: polls the transaction `id` if it waits for keywords. */
    method AdvanceKeyword(id: TxId, llm: Backend, ghost txs0: map<TxId, Tx>, ghost prompts: map<TxId, string>,
                          ghost todo: set<TxId>)
      requires Valid() && id in todo && id in txs0 && id in transactions && transactions[id] == txs0[id]
      requires prompts == texts
      modifies this`transactions, this`submissions, KeywordTargets(id)
      ensures Valid()
      ensures transactions == old(transactions)[id := KeywordOutcome(id, txs0[id], prompts, llm)]
      ensures submissions == old(submissions) + StepSubmission(id, txs0, prompts, llm)
    {
      var tx := transactions[id];
      if tx.slot.AwaitingKeywords? {
        var reply := llm.poll(tx.entity.model.value, tx.slot.handle);
        if reply.Some? {
          if HasText(reply.value.error) {
            FailKeywordTransaction(id, reply.value);
          } else {
            ChainKeywordTransaction(id, reply.value, llm);
          }
        }
      }
    }

    /** One keyword poll whose reply has error text: the entity records it and is cached. */
    method FailKeywordTransaction(id: TxId, r: Reply)
      requires Valid() && id in transactions && transactions[id].slot.AwaitingKeywords? && HasText(r.error)
      modifies this`transactions, transactions[id].entity
      ensures Valid() && transactions == old(transactions)[id := Tx(old(transactions[id].entity), Cached)]
      ensures KeywordFailed(transactions[id].entity, r)
    {
      var g := transactions[id].entity;
      var ok := g.MarkError(r.error.value, r.description);
      transactions := transactions[id := Tx(g, Cached)];
    }

    /**
     * One keyword poll whose reply has no error text: KEYWORDS is filled into
     * the builder, the keyword handle and builder are dropped, and the same
     * entity is dispatched with the finished prompt under the same id.
     */
    method ChainKeywordTransaction(id: TxId, r: Reply, llm: Backend)
      requires Valid() && id in transactions && transactions[id].slot.AwaitingKeywords?
      modifies this`transactions, this`submissions, transactions[id].slot.builder
      ensures Valid()
      ensures var tx := old(transactions[id]);
              var m := tx.entity.model.value;
              var text := ChainedPrompt(old(tx.slot.builder.prompt), r);
              && transactions == old(transactions)[id := Tx(tx.entity, AwaitingGraphCode(llm.submit(m, text)))]
              && submissions == old(submissions) + {Submission(id, GraphCodeStage, m, text, llm.submit(m, text))}
    {
      var g := transactions[id].entity;
      assert g in Repr && g in owner && owner[g] == id && g.Valid() && g.state == Pending;
      var text := FillKeywords(id, KeywordsJson(r.dictionary));
      var _ := DispatchGraphCode(text, g, id, llm);
    }

    /**
     * `replace(KEYWORDS, json)` and `toString` on the builder of a waiting
     * keyword transaction: the builder has nothing left outstanding and
     * yields its text with the keywords filled in.
     */
    method FillKeywords(id: TxId, json: string) returns (text: string)
      requires Valid() && id in transactions && transactions[id].slot.AwaitingKeywords?
      modifies transactions[id].slot.builder
      ensures ValidExcept(Some(id))
      ensures text == ReplaceAll(old(transactions[id].slot.builder.prompt), Token(Keywords), json)
    {
      var builder := transactions[id].slot.builder;
      var replaced := builder.Replace(Keywords, json);
      var res := builder.Finalize();
      text := res.value;
    }

    /**
     * `processTransactions`: one sweep evicts timed-out entries from the
     * cache, the keyword map and the graph-code map, in that order, and then
     * advances the keyword transactions. No id is added; every expired one
     * is gone; every other one is still tracked.
     */
    method Sweep(now: int, llm: Backend)
      requires Valid()
      modifies this`transactions, this`submissions, KeywordObjectsOf(transactions)
      ensures Valid() && Repr == old(Repr)
      ensures transactions == KeywordPass(Survivors(old(transactions), now), old(texts), llm)
      ensures submissions == old(submissions) + KeywordPassSubmissions(Survivors(old(transactions), now), old(texts), llm)
      ensures transactions.Keys <= old(transactions).Keys
      ensures forall id :: id in old(transactions) ==>
        (id in transactions <==> !Expired(old(transactions)[id].entity, now))
      ensures forall id :: id in old(transactions) && !old(transactions[id].slot).AwaitingKeywords? ==>
        unchanged(old(transactions[id].entity))
    {
      EvictExpired(now);
      KeywordObjectsShrink(transactions, old(transactions));
      CheckKeywordTransactions(llm);
    }

    /** The three `removeTimeouts` of a sweep: together they evict every expired transaction. */
    method EvictExpired(now: int)
      requires Valid()
      modifies this`transactions
      ensures Valid() && transactions == Survivors(old(transactions), now)
    {
      ghost var txs0 := transactions;
      RemoveTimeouts(FinishedTable, now);
      ghost var txs1 := transactions;
      RemoveTimeouts(PendingKeywordTable, now);
      ghost var txs2 := transactions;
      RemoveTimeouts(PendingGraphCodeTable, now);
      forall id | id in txs0
        ensures id in transactions <==> !Expired(txs0[id].entity, now)
      {
        var t := TableOf(txs0[id].slot);
      }
      assert transactions.Keys == Survivors(txs0, now).Keys;
    }
  }

  /**
   * Lines 242-248 of the keyword pass as written: the graph-code handle is
   * stored under the id, and the `finally` block then removes the id.
   */
  function ChainedHandlesAsWritten(handles: map<TxId, Handle>, id: TxId, h: Handle): (r: map<TxId, Handle>)
    ensures r.Keys == handles.Keys - {id}
  {
    handles[id := h] - {id}
  }

  /** The intended order: the keyword handle is dropped, then the graph-code handle stored. */
  function ChainedHandles(handles: map<TxId, Handle>, id: TxId, h: Handle): (r: map<TxId, Handle>)
    ensures r.Keys == handles.Keys + {id} && r[id] == h
    ensures forall k :: k in handles && k != id ==> r[k] == handles[k]
  {
    (handles - {id})[id := h]
  }

  /** At-most-once delivery: after a cached result is handed out, the id is unknown. */
  method DeliverOnce(s: AsyncLLMService, id: TxId, llm: Backend) returns (first: GraphCode, second: GraphCode)
    requires s.Valid() && id in s.transactions && s.transactions[id].slot.Cached?
    modifies s
    ensures first.state == Error && second == s.notAvailable && second.state == NotAvailable
  {
    first := s.GetGraphCode(id, llm);
    second := s.GetGraphCode(id, llm);
  }
}
