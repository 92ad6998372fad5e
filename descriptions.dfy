/**
  The description resolver: every entity gets one representative text, chosen as
  its description, else an excerpt of its article, else its name.
 */
module Descriptions {
  import opened Options
  import opened Dicts

  /** One row of the entity table. `count` is the entity's occurrence frequency. */
  datatype Entity = Entity(
    name: string,
    description: Option<string>,
    articleText: Option<string>,
    count: int)

  /** Number of leading article characters used when there is no description. */
  const ExcerptLength: nat := 200

  /** Python truthiness of an optional string: present and not empty. */
  predicate Truthy(s: Option<string>)
    ensures Truthy(s) <==> s != None && s != Some("")
  {
    s.Some? && s.value != []
  }

  function Min(a: int, b: int): int {
    if a <= b then a else b
  }

  /** The slice `s[:n]`: the longest prefix of `s` with at most `n` characters. */
  function Truncate(s: string, n: nat): (r: string)
    ensures r <= s
    ensures |r| == Min(n, |s|)
  {
    if |s| <= n then s else s[..n]
  }

  /** The text chosen for one entity. */
  function ResolveDescription(e: Entity): (r: string)
    ensures Truthy(e.description) ==> r == e.description.value
    ensures !Truthy(e.description) && Truthy(e.articleText) ==>
              r <= e.articleText.value && |r| == Min(ExcerptLength, |e.articleText.value|)
    ensures !Truthy(e.description) && !Truthy(e.articleText) ==> r == e.name
  {
    if Truthy(e.description) then e.description.value
    else if Truthy(e.articleText) then Truncate(e.articleText.value, ExcerptLength)
    else e.name
  }

  /** The resolved text is empty exactly when all three sources are empty or absent. */
  lemma ResolvedEmptyIffNoSource(e: Entity)
    ensures ResolveDescription(e) == [] <==>
              !Truthy(e.description) && !Truthy(e.articleText) && e.name == []
  {
  }

  /** The dictionary of resolved texts, keyed and ordered as the entity dictionary. */
  function ResolveDescriptions(entities: Dict<string, Entity>): (r: Dict<string, string>)
    requires entities.Valid()
    ensures r.Valid()
    ensures r.keys == entities.keys
    ensures r.entries.Keys == entities.entries.Keys
    ensures forall q :: q in r.entries ==> r.entries[q] == ResolveDescription(entities.entries[q])
  {
    Dict(entities.keys, map q | q in entities.entries :: ResolveDescription(entities.entries[q]))
  }

  /** Three entities, one for each branch of the priority order. */
  lemma ResolveScenarios()
    ensures var article := seq(300, i => if i < 200 then 'a' else 'b');
      var entities := Dict(["Q1", "Q2", "Q3"], map[
        "Q1" := Entity("City", Some("A city."), Some(article), 3),
        "Q2" := Entity("Long", None, Some(article), 2),
        "Q3" := Entity("Foo", Some(""), None, 1)]);
      entities.Valid() &&
      var r := ResolveDescriptions(entities);
      && r.keys == ["Q1", "Q2", "Q3"]
      && r.entries["Q1"] == "A city."
      && r.entries["Q2"] == seq(200, i => 'a')
      && r.entries["Q3"] == "Foo"
  {
    var article := seq(300, i => if i < 200 then 'a' else 'b');
    assert Truncate(article, ExcerptLength) == seq(200, i => 'a');
  }
}
