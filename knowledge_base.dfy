/**
  The knowledge base the script populates belongs to an external library whose
  checks are not visible here, so it is modelled as the log of the calls made on it.
 */
module KnowledgeBases {

  /** One call on the knowledge base; `V` is the vector type, `P` the probability type. */
  datatype KbCall<V, P> =
    | SetEntitiesCall(entityList: seq<string>, vectorList: seq<V>, freqList: seq<int>)
    | AddAliasCall(alias: string, entities: seq<string>, probabilities: seq<P>)

  class KnowledgeBase<V, P> {
    /** Every call made on this knowledge base, oldest first. */
    var calls: seq<KbCall<V, P>>

    constructor ()
      ensures calls == []
    {
      calls := [];
    }

    method SetEntities(entityList: seq<string>, vectorList: seq<V>, freqList: seq<int>)
      modifies this
      ensures calls == old(calls) + [SetEntitiesCall(entityList, vectorList, freqList)]
    {
      calls := calls + [SetEntitiesCall(entityList, vectorList, freqList)];
    }

    method AddAlias(alias: string, entities: seq<string>, probabilities: seq<P>)
      modifies this
      ensures calls == old(calls) + [AddAliasCall(alias, entities, probabilities)]
    {
      calls := calls + [AddAliasCall(alias, entities, probabilities)];
    }
  }

  /** How many times `calls` registers the alias `a`. */
  function AliasCount<V, P>(calls: seq<KbCall<V, P>>, a: string): nat {
    if calls == [] then 0
    else (if calls[0].AddAliasCall? && calls[0].alias == a then 1 else 0) + AliasCount(calls[1..], a)
  }

  lemma {:induction false} AliasCountAppend<V, P>(xs: seq<KbCall<V, P>>, ys: seq<KbCall<V, P>>, a: string)
    ensures AliasCount(xs + ys, a) == AliasCount(xs, a) + AliasCount(ys, a)
  {
    if xs != [] {
      assert (xs + ys)[1..] == xs[1..] + ys;
      AliasCountAppend(xs[1..], ys, a);
    } else {
      assert xs + ys == ys;
    }
  }
}
