/**
 * Request assembly for one natural-language query. The graph-code prompt has
 * its query, user and encoding placeholders substituted where required;
 * a graph-code prompt that needs keywords is chained behind a keyword
 * prompt built the same way, and any other graph-code prompt is dispatched
 * directly.
 */
module Nlq {
  import opened Base
  import opened GraphCodes
  import opened Prompts
  import opened Orchestrator

  /** Why a query was refused: a prompt left placeholders open, or the orchestrator refused the dispatch. */
  datatype NlqError = IncompletePrompt(leftover: seq<Replacement>) | Refused(reason: DispatchError)

  /** A builder of `kind` after `replaceIfRequired` of QUERY, USER and ENCODING, in that order. */
  function Filled(kind: PromptKind, query: string, user: string, encoding: string): Draft
  {
    var d := Draft(kind.required, kind.template);
    Substituted(Substituted(Substituted(d, Query, query), User, user), Encoding, encoding)
  }

  /** One substitution step on a duplicate-free list removes `r` and keeps every other placeholder. */
  lemma SubstitutedKeeps(d: Draft, r: Replacement, t: string)
    requires NoDuplicates(d.leftover)
    ensures var l := Substituted(d, r, t).leftover;
      && NoDuplicates(l) && r !in l
      && forall x :: x != r ==> (x in l <==> x in d.leftover)
  {
    if r in d.leftover {
      SubstituteOnce(d, r, t);
      var l := Substituted(d, r, t).leftover;
      forall x | x != r ensures x in l <==> x in d.leftover {
        assert multiset(l)[x] == multiset(d.leftover)[x];
      }
    }
  }

  /** A duplicate-free list holds any value at most once. */
  lemma {:induction false} OccursOnce<T>(l: seq<T>, x: T)
    requires NoDuplicates(l)
    ensures multiset(l)[x] <= 1
  {
    if l != [] {
      assert l == [l[0]] + l[1..];
      OccursOnce(l[1..], x);
      if l[0] == x {
        forall j | 0 <= j < |l| - 1 ensures l[1..][j] != x {
          assert l[0] != l[j + 1];
        }
        assert x !in multiset(l[1..]);
      }
    }
  }

  /** A list whose every element is `x` holds `x` as many times as it is long. */
  lemma {:induction false} OccursEverywhere<T>(l: seq<T>, x: T)
    requires forall i | 0 <= i < |l| :: l[i] == x
    ensures multiset(l)[x] == |l|
  {
    if l != [] {
      assert l == [l[0]] + l[1..];
      OccursEverywhere(l[1..], x);
    }
  }

  /**
   * With no placeholder declared twice, QUERY, USER and ENCODING are all
   * consumed, so what is left outstanding is exactly [KEYWORDS] when the
   * prompt requires keywords and nothing otherwise.
   */
  lemma FilledLeftover(kind: PromptKind, query: string, user: string, encoding: string)
    requires NoDuplicates(kind.required)
    ensures Filled(kind, query, user, encoding).leftover == if Keywords in kind.required then [Keywords] else []
  {
    var d0 := Draft(kind.required, kind.template);
    var d1 := Substituted(d0, Query, query);
    var d2 := Substituted(d1, User, user);
    var d3 := Substituted(d2, Encoding, encoding);
    SubstitutedKeeps(d0, Query, query);
    SubstitutedKeeps(d1, User, user);
    SubstitutedKeeps(d2, Encoding, encoding);
    var l1, l2, l := d1.leftover, d2.leftover, d3.leftover;
    assert Query !in l2 && Query !in l && User !in l;
    forall i | 0 <= i < |l| ensures l[i] == Keywords {
      assert l[i] in l;
    }
    OccursOnce(l, Keywords);
    OccursEverywhere(l, Keywords);
    if Keywords in kind.required {
      assert Keywords in l1 && Keywords in l2 && Keywords in l;
      assert l == [Keywords];
    } else {
      assert Keywords !in l1 && Keywords !in l2 && Keywords !in l;
      assert multiset(l)[Keywords] == 0;
    }
  }

  /** A fresh builder of `kind` with QUERY, USER and ENCODING substituted where required. */
  method FilledBuilder(kind: PromptKind, query: string, user: string, encoding: string) returns (b: PromptBuilder)
    ensures fresh(b) && b.Valid() && b.Current() == Filled(kind, query, user, encoding)
  {
    b := new PromptBuilder(kind);
    b.ReplaceIfRequired(Query, query);
    b.ReplaceIfRequired(User, user);
    b.ReplaceIfRequired(Encoding, encoding);
  }

  /** The front end of the service: builds the prompts and hands them to the orchestrator. */
  class NLQService {
    const llmService: AsyncLLMService
    /** The encoding mappings as the text the prompts embed (`getEncodingMappingsAsString`). */
    const encodings: string

    ghost predicate Valid()
      reads this, llmService, llmService.Repr
    {
      llmService.Valid()
    }

    constructor (llmService: AsyncLLMService, encodings: string)
      requires llmService.Valid()
      ensures Valid() && this.llmService == llmService && this.encodings == encodings
    {
      this.llmService := llmService;
      this.encodings := encodings;
    }

    /**
     * `handleNLQ`: fills the graph-code prompt; when it needs keywords, the
     * filled keyword prompt is dispatched with the graph-code builder as its
     * follow-up, otherwise the finished graph-code prompt is dispatched. An
     * open placeholder or a rejected follow-up fails and dispatches nothing.
     */
    method HandleNLQ(query: string, user: string, promptKeyword: PromptKind, promptGraphCode: PromptKind,
                     model: ModelLiteral, id: TxId, now: int, backend: Backend)
      returns (r: Result<TxId, NlqError>)
      requires Valid() && id !in llmService.transactions
      modifies llmService
      ensures Valid()
      ensures var gc := Filled(promptGraphCode, query, user, encodings);
              var kw := Filled(promptKeyword, query, user, encodings);
        && (r.Success? <==>
              if RequiresKeywords(promptGraphCode) then kw.leftover == [] && gc.leftover == [Keywords]
              else gc.leftover == [])
        && (r.Failure? ==>
              && llmService.transactions == old(llmService.transactions)
              && llmService.submissions == old(llmService.submissions)
              && r.error == if !RequiresKeywords(promptGraphCode) then IncompletePrompt(gc.leftover)
                            else if kw.leftover != [] then IncompletePrompt(kw.leftover)
                            else Refused(InvalidFollowUp))
        && (r.Success? ==> r.value == id && id in llmService.transactions)
        && (r.Success? && RequiresKeywords(promptGraphCode) ==>
              var tx := llmService.transactions[id];
              && tx.slot.AwaitingKeywords? && tx.slot.builder.Current() == gc
              && tx.entity.state == Pending && tx.entity.model == Some(model)
              && llmService.transactions == old(llmService.transactions)[id := tx]
              && llmService.submissions == old(llmService.submissions)
                   + {Submission(id, KeywordStage, model, kw.text, backend.submit(model, kw.text))})
        && (r.Success? && !RequiresKeywords(promptGraphCode) ==>
              var tx := llmService.transactions[id];
              && tx.slot == AwaitingGraphCode(backend.submit(model, gc.text))
              && tx.entity.state == Pending && tx.entity.model == Some(model)
              && llmService.transactions == old(llmService.transactions)[id := tx]
              && llmService.submissions == old(llmService.submissions)
                   + {Submission(id, GraphCodeStage, model, gc.text, backend.submit(model, gc.text))})
    {
      var builderGC := FilledBuilder(promptGraphCode, query, user, encodings);
      if RequiresKeywords(promptGraphCode) {
        var builderKeyword := FilledBuilder(promptKeyword, query, user, encodings);
        var keywordPrompt := builderKeyword.Finalize();
        if keywordPrompt.Failure? {
          return Failure(IncompletePrompt(keywordPrompt.error));
        }
        var res := llmService.AddKeywordPrompt(keywordPrompt.value, model, builderGC, id, now, backend);
        if res.Failure? {
          return Failure(Refused(res.error));
        }
        return Success(res.value);
      }
      var prompt := builderGC.Finalize();
      if prompt.Failure? {
        return Failure(IncompletePrompt(prompt.error));
      }
      var tx := llmService.AddGCPrompt(prompt.value, model, id, now, backend);
      return Success(tx);
    }

    /** `getGraphCode`: the orchestrator's lookup of the same id. */
    method GetGraphCode(id: TxId, backend: Backend) returns (g: GraphCode)
      requires Valid()
      modifies llmService, llmService.PollTarget(id)
      ensures Valid() && g.Valid()
      ensures llmService.Repr == old(llmService.Repr) && llmService.submissions == old(llmService.submissions)
      ensures id !in old(llmService.transactions) ==>
        g == llmService.notAvailable && llmService.transactions == old(llmService.transactions)
      ensures id in old(llmService.transactions) ==> g == old(llmService.transactions[id].entity)
      ensures id in old(llmService.transactions) && old(llmService.transactions[id].slot).Cached? ==>
        g.state == Error && llmService.transactions == old(llmService.transactions) - {id}
      ensures id in old(llmService.transactions) && old(llmService.transactions[id].slot).AwaitingKeywords? ==>
        g.state == Pending && llmService.transactions == old(llmService.transactions)
      ensures id in old(llmService.transactions) && old(llmService.transactions[id].slot).AwaitingGraphCode? ==>
        var reply := backend.poll(g.model.value, old(llmService.transactions[id].slot.handle));
        if reply.None? then g.state == Pending && llmService.transactions == old(llmService.transactions)
        else Settled(g, reply.value) && llmService.transactions == old(llmService.transactions) - {id}
      ensures g.state != Pending ==> id !in llmService.transactions
    {
      g := llmService.GetGraphCode(id, backend);
    }
  }
}
