/**
  The population of the knowledge base by the script's `main`: the entity lists,
  the aliases with their priors, the pseudo aliases, and the rows of the
  description file. Vector inference is a parameter `embed`, and the literal
  probability 1 is the parameter `one` of the opaque probability type `P`.
 */
module CreateKb {
  import opened Dicts
  import opened Descriptions
  import opened KnowledgeBases

  // ----- Inference inputs and outputs -----

  /** The texts handed to inference: the resolved description of each key, in key order. */
  function InferenceTexts(keys: seq<string>, descriptions: Dict<string, string>): (texts: seq<string>)
    requires forall q :: q in keys ==> q in descriptions.entries
    ensures |texts| == |keys|
    ensures forall i :: 0 <= i < |keys| ==> texts[i] == descriptions.entries[keys[i]]
  {
    seq(|keys|, i requires 0 <= i < |keys| => descriptions.entries[keys[i]])
  }

  /** One vector per text, in text order. */
  function DescVectors<V>(texts: seq<string>, embed: string -> V): (vectors: seq<V>)
    ensures |vectors| == |texts|
    ensures forall i :: 0 <= i < |texts| ==> vectors[i] == embed(texts[i])
  {
    seq(|texts|, i requires 0 <= i < |texts| => embed(texts[i]))
  }

  // ----- The entity lists -----

  /**
    The id, count and vector lists built by pairing the entity keys with the
    inferred vectors; pairing stops at the shorter of the two.
   */
  function EntityLists<V>(entities: Dict<string, Entity>, descVectors: seq<V>): (lists: (seq<string>, seq<int>, seq<V>))
    requires entities.Valid()
    ensures var n := Min(|entities.keys|, |descVectors|);
      && lists.0 == entities.keys[..n]
      && lists.2 == descVectors[..n]
      && |lists.1| == n
      && forall i :: 0 <= i < n ==>
           lists.0[i] in entities.entries && lists.1[i] == entities.entries[lists.0[i]].count
  {
    var n := Min(|entities.keys|, |descVectors|);
    (entities.keys[..n],
     seq(n, i requires 0 <= i < n => entities.entries[entities.keys[i]].count),
     descVectors[..n])
  }

  /** The loop that appends one id, one count and one vector per paired entity. */
  method AssembleEntityLists<V>(entities: Dict<string, Entity>, descVectors: seq<V>)
    returns (entityList: seq<string>, countList: seq<int>, vectorList: seq<V>)
    requires entities.Valid()
    ensures (entityList, countList, vectorList) == EntityLists(entities, descVectors)
  {
    entityList, countList, vectorList := [], [], [];
    var i := 0;
    while i < |entities.keys| && i < |descVectors|
      invariant i <= |entities.keys| && i <= |descVectors|
      invariant entityList == entities.keys[..i]
      invariant vectorList == descVectors[..i]
      invariant |countList| == i
      invariant forall j :: 0 <= j < i ==> countList[j] == entities.entries[entities.keys[j]].count
    {
      var qid := entities.keys[i];
      entityList := entityList + [qid];
      countList := countList + [entities.entries[qid].count];
      vectorList := vectorList + [descVectors[i]];
      i := i + 1;
    }
    assert countList == EntityLists(entities, descVectors).1;
  }

  // ----- Aliases with priors -----

  /** The first components of a list of pairs. */
  function Firsts<A, B>(pairs: seq<(A, B)>): (r: seq<A>)
    ensures |r| == |pairs|
    ensures forall i :: 0 <= i < |pairs| ==> r[i] == pairs[i].0
  {
    if pairs == [] then [] else [pairs[0].0] + Firsts(pairs[1..])
  }

  /** The second components of a list of pairs. */
  function Seconds<A, B>(pairs: seq<(A, B)>): (r: seq<B>)
    ensures |r| == |pairs|
    ensures forall i :: 0 <= i < |pairs| ==> r[i] == pairs[i].1
  {
    if pairs == [] then [] else [pairs[0].1] + Seconds(pairs[1..])
  }

  /** Pairs up two lists of equal length, position by position. */
  function Zip<A, B>(xs: seq<A>, ys: seq<B>): (r: seq<(A, B)>)
    requires |xs| == |ys|
    ensures |r| == |xs|
  {
    if xs == [] then [] else [(xs[0], ys[0])] + Zip(xs[1..], ys[1..])
  }

  /** Splitting a candidate list into entities and priors loses nothing and keeps the order. */
  lemma {:induction false} ZipProjections<A, B>(pairs: seq<(A, B)>)
    ensures Zip(Firsts(pairs), Seconds(pairs)) == pairs
  {
    if pairs != [] {
      ZipProjections(pairs[1..]);
      assert Firsts(pairs)[1..] == Firsts(pairs[1..]);
      assert Seconds(pairs)[1..] == Seconds(pairs[1..]);
    }
  }

  /** The projections of zipped lists give back the lists. */
  lemma {:induction false} ProjectionsOfZip<A, B>(xs: seq<A>, ys: seq<B>)
    requires |xs| == |ys|
    ensures Firsts(Zip(xs, ys)) == xs && Seconds(Zip(xs, ys)) == ys
  {
    if xs != [] {
      ProjectionsOfZip(xs[1..], ys[1..]);
      assert Zip(xs, ys)[1..] == Zip(xs[1..], ys[1..]);
    }
  }

  /** The calls made for the aliases `aliases`, in that order. */
  function PriorAliasCalls<V, P>(aliases: seq<string>, priors: map<string, seq<(string, P)>>): (calls: seq<KbCall<V, P>>)
    requires forall a :: a in aliases ==> a in priors
    ensures |calls| == |aliases|
    ensures forall i :: 0 <= i < |calls| ==> calls[i].AddAliasCall?
  {
    if aliases == [] then []
    else
      var a := aliases[|aliases| - 1];
      PriorAliasCalls(aliases[..|aliases| - 1], priors)
        + [AddAliasCall(a, Firsts(priors[a]), Seconds(priors[a]))]
  }

  lemma {:induction false} PriorAliasCallsAt<V, P>(aliases: seq<string>, priors: map<string, seq<(string, P)>>, i: nat)
    requires forall a :: a in aliases ==> a in priors
    requires i < |aliases|
    ensures PriorAliasCalls<V, P>(aliases, priors)[i]
            == AddAliasCall(aliases[i], Firsts(priors[aliases[i]]), Seconds(priors[aliases[i]]))
  {
    if i < |aliases| - 1 {
      PriorAliasCallsAt<V, P>(aliases[..|aliases| - 1], priors, i);
    }
  }

  /** With distinct alias keys, each loaded alias is registered exactly once, and no other. */
  lemma {:induction false} PriorAliasCallsOnce<V, P>(aliases: seq<string>, priors: map<string, seq<(string, P)>>, a: string)
    requires forall x :: x in aliases ==> x in priors
    requires Distinct(aliases)
    ensures AliasCount(PriorAliasCalls<V, P>(aliases, priors), a) == if a in aliases then 1 else 0
  {
    if aliases != [] {
      var init, last := aliases[..|aliases| - 1], aliases[|aliases| - 1];
      assert aliases == init + [last];
      PriorAliasCallsOnce<V, P>(init, priors, a);
      var call: KbCall<V, P> := AddAliasCall(last, Firsts(priors[last]), Seconds(priors[last]));
      AliasCountAppend(PriorAliasCalls<V, P>(init, priors), [call], a);
      assert AliasCount([call], a) == if last == a then 1 else 0;
      assert last !in init;
    }
  }

  /** The loop registering every loaded alias with its projected candidate lists. */
  method AddPriorAliases<V, P>(kb: KnowledgeBase<V, P>, aliasPriors: Dict<string, seq<(string, P)>>)
    requires aliasPriors.Valid()
    modifies kb
    ensures kb.calls == old(kb.calls) + PriorAliasCalls(aliasPriors.keys, aliasPriors.entries)
  {
    var i := 0;
    while i < |aliasPriors.keys|
      invariant i <= |aliasPriors.keys|
      invariant kb.calls == old(kb.calls) + PriorAliasCalls(aliasPriors.keys[..i], aliasPriors.entries)
    {
      var alias := aliasPriors.keys[i];
      var entityPriorProbs := aliasPriors.entries[alias];
      kb.AddAlias(alias, Firsts(entityPriorProbs), Seconds(entityPriorProbs));
      assert aliasPriors.keys[..i + 1][..i] == aliasPriors.keys[..i];
      i := i + 1;
    }
    assert aliasPriors.keys[..i] == aliasPriors.keys;
  }

  // ----- Pseudo aliases -----

  /** The alias `_<id>_` that looks an entity up by its id. */
  function PseudoAlias(entityId: string): (alias: string)
    ensures |alias| == |entityId| + 2
    ensures alias[0] == '_' && alias[|alias| - 1] == '_'
    ensures alias[1..|alias| - 1] == entityId
  {
    "_" + entityId + "_"
  }

  /** Distinct ids give distinct pseudo aliases. */
  lemma PseudoAliasInjective(x: string, y: string)
    ensures PseudoAlias(x) == PseudoAlias(y) <==> x == y
  {
  }

  /** The calls made for the pseudo aliases of `ids`, in that order. */
  function PseudoAliasCalls<V, P>(ids: seq<string>, one: P): (calls: seq<KbCall<V, P>>)
    ensures |calls| == |ids|
    ensures forall i :: 0 <= i < |calls| ==> calls[i].AddAliasCall?
  {
    if ids == [] then []
    else
      var id := ids[|ids| - 1];
      PseudoAliasCalls(ids[..|ids| - 1], one) + [AddAliasCall(PseudoAlias(id), [id], [one])]
  }

  lemma {:induction false} PseudoAliasCallsAt<V, P>(ids: seq<string>, one: P, i: nat)
    requires i < |ids|
    ensures PseudoAliasCalls<V, P>(ids, one)[i] == AddAliasCall(PseudoAlias(ids[i]), [ids[i]], [one])
  {
    if i < |ids| - 1 {
      PseudoAliasCallsAt<V, P>(ids[..|ids| - 1], one, i);
    }
  }

  /** With distinct ids, each id's pseudo alias is registered exactly once. */
  lemma {:induction false} PseudoAliasCallsOnce<V, P>(ids: seq<string>, one: P, id: string)
    requires Distinct(ids)
    ensures AliasCount(PseudoAliasCalls<V, P>(ids, one), PseudoAlias(id)) == if id in ids then 1 else 0
  {
    if ids != [] {
      var init, last := ids[..|ids| - 1], ids[|ids| - 1];
      assert ids == init + [last];
      PseudoAliasCallsOnce<V, P>(init, one, id);
      var call: KbCall<V, P> := AddAliasCall(PseudoAlias(last), [last], [one]);
      AliasCountAppend(PseudoAliasCalls<V, P>(init, one), [call], PseudoAlias(id));
      PseudoAliasInjective(last, id);
      assert AliasCount([call], PseudoAlias(id)) == if last == id then 1 else 0;
      assert last !in init;
    }
  }

  /** The loop registering one pseudo alias per entity of the entity list. */
  method AddPseudoAliases<V, P>(kb: KnowledgeBase<V, P>, entityList: seq<string>, one: P)
    modifies kb
    ensures kb.calls == old(kb.calls) + PseudoAliasCalls(entityList, one)
  {
    var i := 0;
    while i < |entityList|
      invariant i <= |entityList|
      invariant kb.calls == old(kb.calls) + PseudoAliasCalls(entityList[..i], one)
    {
      var entityId := entityList[i];
      kb.AddAlias(PseudoAlias(entityId), [entityId], [one]);
      assert entityList[..i + 1][..i] == entityList[..i];
      i := i + 1;
    }
    assert entityList[..i] == entityList;
  }

  // ----- The description file -----

  /**
    The rows `[qid, description]` of the description file, in dictionary order:
    every key heads exactly one row.
   */
  function CsvRows(descriptions: Dict<string, string>): (rows: seq<seq<string>>)
    requires descriptions.Valid()
    ensures |rows| == |descriptions.keys|
    ensures forall i :: 0 <= i < |rows| ==>
              descriptions.keys[i] in descriptions.entries
              && rows[i] == [descriptions.keys[i], descriptions.entries[descriptions.keys[i]]]
    ensures forall q :: q in descriptions.entries ==> exists i :: 0 <= i < |rows| && rows[i][0] == q
    ensures forall i, j :: 0 <= i < j < |rows| ==> rows[i][0] != rows[j][0]
  {
    var keys := descriptions.keys;
    var rows := seq(|keys|, i requires 0 <= i < |keys| => [keys[i], descriptions.entries[keys[i]]]);
    assert forall q :: q in descriptions.entries ==> exists i :: 0 <= i < |keys| && keys[i] == q;
    rows
  }

  /** The loop writing one row per item of the description dictionary. */
  method DescriptionRows(descriptions: Dict<string, string>) returns (rows: seq<seq<string>>)
    requires descriptions.Valid()
    ensures rows == CsvRows(descriptions)
  {
    rows := [];
    var i := 0;
    while i < |descriptions.keys|
      invariant i <= |descriptions.keys|
      invariant |rows| == i
      invariant forall j :: 0 <= j < i ==>
                  rows[j] == [descriptions.keys[j], descriptions.entries[descriptions.keys[j]]]
    {
      var qid := descriptions.keys[i];
      rows := rows + [[qid, descriptions.entries[qid]]];
      i := i + 1;
    }
  }

  // ----- The whole population -----

  /** The calls made on the knowledge base once the vectors are inferred, in order. */
  function PopulationCalls<V, P>(
    entities: Dict<string, Entity>,
    aliasPriors: Dict<string, seq<(string, P)>>,
    descVectors: seq<V>,
    one: P): (calls: seq<KbCall<V, P>>)
    requires entities.Valid() && aliasPriors.Valid()
    ensures |calls| == 1 + |aliasPriors.keys| + Min(|entities.keys|, |descVectors|)
    ensures calls[0].SetEntitiesCall?
    ensures forall i :: 1 <= i < |calls| ==> calls[i].AddAliasCall?
  {
    var lists := EntityLists(entities, descVectors);
    [SetEntitiesCall(lists.0, lists.2, lists.1)]
      + PriorAliasCalls(aliasPriors.keys, aliasPriors.entries)
      + PseudoAliasCalls(lists.0, one)
  }

  /** Every call the script makes on the knowledge base, in order. */
  function KbPlan<V, P>(
    entities: Dict<string, Entity>,
    aliasPriors: Dict<string, seq<(string, P)>>,
    embed: string -> V,
    one: P): (plan: seq<KbCall<V, P>>)
    requires entities.Valid() && aliasPriors.Valid()
    ensures |plan| == 1 + |aliasPriors.keys| + |entities.keys|
    ensures plan[0].SetEntitiesCall?
    ensures forall i :: 1 <= i < |plan| ==> plan[i].AddAliasCall?
  {
    var descriptions := ResolveDescriptions(entities);
    PopulationCalls(entities, aliasPriors, DescVectors(InferenceTexts(entities.keys, descriptions), embed), one)
  }

  /** The bulk call registers every entity, in key order, with its count and the vector of its resolved text. */
  lemma KbPlanEntities<V, P>(
    entities: Dict<string, Entity>,
    aliasPriors: Dict<string, seq<(string, P)>>,
    embed: string -> V,
    one: P)
    requires entities.Valid() && aliasPriors.Valid()
    ensures var call := KbPlan(entities, aliasPriors, embed, one)[0];
      && call.SetEntitiesCall?
      && call.entityList == entities.keys
      && |call.vectorList| == |call.freqList| == |entities.keys|
      && forall i :: 0 <= i < |entities.keys| ==>
           && entities.keys[i] in entities.entries
           && call.freqList[i] == entities.entries[entities.keys[i]].count
           && call.vectorList[i] == embed(ResolveDescription(entities.entries[entities.keys[i]]))
  {
    var descVectors := DescVectors(InferenceTexts(entities.keys, ResolveDescriptions(entities)), embed);
    assert descVectors[..|entities.keys|] == descVectors;
  }

  /** After the bulk call come the loaded aliases, each once, in dictionary order, with its candidates and priors. */
  lemma KbPlanPriorAliases<V, P>(
    entities: Dict<string, Entity>,
    aliasPriors: Dict<string, seq<(string, P)>>,
    embed: string -> V,
    one: P)
    requires entities.Valid() && aliasPriors.Valid()
    ensures var plan := KbPlan(entities, aliasPriors, embed, one);
      var n := |aliasPriors.keys|;
      var natural := plan[1..1 + n];
      && 1 + n <= |plan|
      && (forall i :: 0 <= i < n ==>
            && aliasPriors.keys[i] in aliasPriors.entries
            && natural[i] == AddAliasCall(
                 aliasPriors.keys[i],
                 Firsts(aliasPriors.entries[aliasPriors.keys[i]]),
                 Seconds(aliasPriors.entries[aliasPriors.keys[i]])))
      && forall a :: AliasCount(natural, a) == if a in aliasPriors.keys then 1 else 0
  {
    var plan := KbPlan(entities, aliasPriors, embed, one);
    var natural := PriorAliasCalls<V, P>(aliasPriors.keys, aliasPriors.entries);
    assert plan[1..1 + |aliasPriors.keys|] == natural;
    forall i | 0 <= i < |aliasPriors.keys|
      ensures natural[i] == AddAliasCall(
                aliasPriors.keys[i],
                Firsts(aliasPriors.entries[aliasPriors.keys[i]]),
                Seconds(aliasPriors.entries[aliasPriors.keys[i]]))
    {
      PriorAliasCallsAt<V, P>(aliasPriors.keys, aliasPriors.entries, i);
    }
    forall a: string ensures AliasCount(natural, a) == if a in aliasPriors.keys then 1 else 0 {
      PriorAliasCallsOnce<V, P>(aliasPriors.keys, aliasPriors.entries, a);
    }
  }

  /** The plan ends with one pseudo alias per entity, in key order, each naming that entity alone with probability one. */
  lemma KbPlanPseudoAliases<V, P>(
    entities: Dict<string, Entity>,
    aliasPriors: Dict<string, seq<(string, P)>>,
    embed: string -> V,
    one: P)
    requires entities.Valid() && aliasPriors.Valid()
    ensures var plan := KbPlan(entities, aliasPriors, embed, one);
      var start := 1 + |aliasPriors.keys|;
      && |plan| == start + |entities.keys|
      && (forall j :: 0 <= j < |entities.keys| ==>
            plan[start..][j] == AddAliasCall(PseudoAlias(entities.keys[j]), [entities.keys[j]], [one]))
      && forall id :: AliasCount(plan[start..], PseudoAlias(id)) == if id in entities.keys then 1 else 0
  {
    var plan := KbPlan(entities, aliasPriors, embed, one);
    var pseudo := PseudoAliasCalls<V, P>(entities.keys, one);
    KbPlanEntities(entities, aliasPriors, embed, one);
    assert plan[1 + |aliasPriors.keys|..] == pseudo;
    forall j | 0 <= j < |entities.keys|
      ensures pseudo[j] == AddAliasCall(PseudoAlias(entities.keys[j]), [entities.keys[j]], [one])
    {
      PseudoAliasCallsAt<V, P>(entities.keys, one, j);
    }
    forall id: string ensures AliasCount(pseudo, PseudoAlias(id)) == if id in entities.keys then 1 else 0 {
      PseudoAliasCallsOnce<V, P>(entities.keys, one, id);
    }
  }

  /** An alias with two candidates keeps both, with their priors, in order. */
  lemma ParisScenario<P>(high: P, low: P)
    ensures var aliasPriors := Dict(["paris"], map["paris" := [("Q1", high), ("Q4", low)]]);
      PriorAliasCalls<int, P>(aliasPriors.keys, aliasPriors.entries)
        == [AddAliasCall("paris", ["Q1", "Q4"], [high, low])]
  {
    var pairs := [("Q1", high), ("Q4", low)];
    assert Firsts(pairs) == ["Q1", "Q4"];
    assert Seconds(pairs) == [high, low];
    assert ["paris"][..0] == [];
  }

  /** The plan for the vectors inferred from the resolved descriptions. */
  lemma KbPlanFromVectors<V, P>(
    entities: Dict<string, Entity>,
    aliasPriors: Dict<string, seq<(string, P)>>,
    embed: string -> V,
    one: P,
    descVectors: seq<V>)
    requires entities.Valid() && aliasPriors.Valid()
    requires descVectors == DescVectors(InferenceTexts(entities.keys, ResolveDescriptions(entities)), embed)
    ensures KbPlan(entities, aliasPriors, embed, one) == PopulationCalls(entities, aliasPriors, descVectors, one)
  {
  }

  /** The description file lists every entity once, in key order, with its resolved text. */
  lemma CsvRowsOfEntities(entities: Dict<string, Entity>)
    requires entities.Valid()
    ensures var rows := CsvRows(ResolveDescriptions(entities));
      && |rows| == |entities.keys|
      && forall i :: 0 <= i < |rows| ==>
           entities.keys[i] in entities.entries
           && rows[i] == [entities.keys[i], ResolveDescription(entities.entries[entities.keys[i]])]
  {
  }

  /**
    The knowledge-base part of `main`, given the inferred vectors: register the
    entities, the loaded aliases and the pseudo aliases.
   */
  method PopulateKnowledgeBase<V, P>(
    kb: KnowledgeBase<V, P>,
    entities: Dict<string, Entity>,
    aliasPriors: Dict<string, seq<(string, P)>>,
    descVectors: seq<V>,
    one: P)
    requires entities.Valid() && aliasPriors.Valid()
    modifies kb
    ensures kb.calls == old(kb.calls) + PopulationCalls(entities, aliasPriors, descVectors, one)
  {
    var entityList, countList, vectorList := AssembleEntityLists(entities, descVectors);
    kb.SetEntities(entityList, vectorList, countList);
    AddPriorAliases(kb, aliasPriors);
    AddPseudoAliases(kb, entityList, one);
  }

  /**
    The core of `main`: populate the knowledge base, then produce the rows of
    the description file.
   */
  method CreateKnowledgeBase<V, P>(
    entities: Dict<string, Entity>,
    aliasPriors: Dict<string, seq<(string, P)>>,
    embed: string -> V,
    one: P)
    returns (kb: KnowledgeBase<V, P>, descriptions: Dict<string, string>, rows: seq<seq<string>>)
    requires entities.Valid() && aliasPriors.Valid()
    ensures fresh(kb)
    ensures kb.calls == KbPlan(entities, aliasPriors, embed, one)
    ensures descriptions == ResolveDescriptions(entities)
    ensures rows == CsvRows(descriptions)
  {
    kb := new KnowledgeBase();
    descriptions := ResolveDescriptions(entities);
    var descVectors := DescVectors(InferenceTexts(entities.keys, descriptions), embed);
    PopulateKnowledgeBase(kb, entities, aliasPriors, descVectors, one);
    KbPlanFromVectors(entities, aliasPriors, embed, one, descVectors);
    rows := DescriptionRows(descriptions);
  }
}
