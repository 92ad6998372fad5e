# Knowledge-base population for entity linking

This project models the sequential core of `scripts/create_kb.py`. The script builds an
entity-linking knowledge base. It resolves one description text per entity. It registers
every entity with its occurrence count and the embedding vector of that text. It registers
every loaded alias with its candidate entities and prior probabilities. It adds one pseudo
alias `_<id>_` per entity. Last, it writes the rows of `descriptions.csv`.

How the model is built:

- `Dicts.Dict` models a Python dict. `keys` holds the iteration (insertion) order and
  `entries` holds the values. `Valid()` says that keys are distinct and that exactly the
  listed keys have values.
- `Descriptions` holds the entity record and the description resolver as pure functions.
  Python truthiness of an optional string is `Truthy`, and the slice `text[:200]` is
  `Truncate`.
- `KnowledgeBases` models the external knowledge base as a log of the calls made on it.
  Its class `KnowledgeBase` has a method for `set_entities` and one for `add_alias`, and
  each appends one `KbCall`. The library's own checks are not invented.
- `CreateKb` holds the loops of `main` as methods: the entity-list loop, the alias loop,
  the pseudo-alias loop and the CSV row loop. Each method is proved against a
  specification function: `AssembleEntityLists` against `EntityLists`, `AddPriorAliases`
  against `PriorAliasCalls`, `AddPseudoAliases` against `PseudoAliasCalls`, and
  `DescriptionRows` against `CsvRows`. `PopulationCalls` is the sequence of
  knowledge-base calls once the vectors are known, and `KbPlan` is the whole sequence,
  starting from the entity dict. Lemmas prove its layout, that
  each loaded alias is registered exactly once, and that each entity gets exactly one
  pseudo alias.
- Vectors and probabilities are opaque type parameters `V` and `P`. Vector inference
  (`nlp.pipe` followed by `doc.vector`) is the parameter `embed: string -> V`, which
  gives one vector per text. The literal probability `1` of the pseudo aliases is the
  parameter `one: P`.
- `zip(entities.keys(), desc_vectors)` stops at the shorter list. `AssembleEntityLists`
  keeps that truncation. In `KbPlan` both lists have the same length.

## Model

| member | source | states |
|---|---|---|
| `Descriptions.Truncate` | scripts/create_kb.py:47 | the slice `s[:n]` is a prefix of `s` of length min(n, \|s\|) |
| `Descriptions.Truthy` | scripts/create_kb.py:45-48 | an optional string is truthy exactly when it is neither absent nor the empty string |
| `Descriptions.ResolveDescription` | scripts/create_kb.py:44-50 | a truthy description is used exactly; otherwise a truthy article gives a prefix of at most 200 characters (length min(200, \|article\|)); otherwise the name |
| `Descriptions.ResolvedEmptyIffNoSource` | scripts/create_kb.py:44-50 | the resolved text is empty if and only if description and article are absent or empty and the name is empty |
| `Descriptions.ResolveDescriptions` | scripts/create_kb.py:43-52 | the description dict has the same keys as the entity dict, in the same order, one resolved text per entity, and is itself a valid dict |
| `Descriptions.ResolveScenarios` | scripts/create_kb.py:43-52 | worked cases: a description wins, a 300-character article is cut to its first 200 characters, an empty description with no article falls back to the name |
| `KnowledgeBases.KnowledgeBase.constructor` | scripts/create_kb.py:37-38 | a new knowledge base has received no calls |
| `KnowledgeBases.KnowledgeBase.SetEntities` | scripts/create_kb.py:72-74 | records one bulk entity registration and nothing else |
| `KnowledgeBases.KnowledgeBase.AddAlias` | scripts/create_kb.py:81-85 | records one alias registration and nothing else |
| `CreateKb.InferenceTexts` | scripts/create_kb.py:59 | one text per entity key, in key order; text i is the resolved description of key i |
| `CreateKb.DescVectors` | scripts/create_kb.py:55-64 | one vector per text, in text order; vector i is the embedding of text i |
| `CreateKb.EntityLists` | scripts/create_kb.py:65-71 | pairing keys with vectors stops at the shorter list: the id list is the first min(\|entities\|, \|vectors\|) keys in order, the vector list the vectors in order, and count i is the count of entity i |
| `CreateKb.AssembleEntityLists` | scripts/create_kb.py:65-71 | the lists built by the loop are exactly those of `EntityLists` |
| `CreateKb.Firsts` | scripts/create_kb.py:83 | the candidate list has one entry per pair: entry i is the entity of pair i |
| `CreateKb.Seconds` | scripts/create_kb.py:84 | the probability list has one entry per pair: entry i is the prior of pair i |
| `CreateKb.ZipProjections` | scripts/create_kb.py:83-84 | zipping the candidate list with the probability list gives back the pair list, so nothing is lost or reordered |
| `CreateKb.ProjectionsOfZip` | scripts/create_kb.py:83-84 | the projections of zipped lists of equal length give back the two lists |
| `CreateKb.PriorAliasCalls` | scripts/create_kb.py:80-85 | one call per loaded alias, each an alias registration |
| `CreateKb.PriorAliasCallsAt` | scripts/create_kb.py:80-85 | registration i is alias i of the dict with the projections of its pair list |
| `CreateKb.PriorAliasCallsOnce` | scripts/create_kb.py:80-85 | with distinct alias keys, every loaded alias is registered exactly once and no other alias is registered |
| `CreateKb.AddPriorAliases` | scripts/create_kb.py:80-85 | the alias loop appends exactly the registrations of `PriorAliasCalls`, in dict order |
| `CreateKb.PseudoAlias` | scripts/create_kb.py:89 | the pseudo alias has length \|id\|+2, starts and ends with `_`, and holds the id between |
| `CreateKb.PseudoAliasInjective` | scripts/create_kb.py:89 | two pseudo aliases are equal if and only if their ids are |
| `CreateKb.PseudoAliasCalls` | scripts/create_kb.py:87-90 | one call per id, each an alias registration |
| `CreateKb.PseudoAliasCallsAt` | scripts/create_kb.py:87-90 | registration i is the pseudo alias of id i with candidates `[id]` and probabilities `[1]` |
| `CreateKb.PseudoAliasCallsOnce` | scripts/create_kb.py:87-90 | with distinct ids, the pseudo alias of an id is registered once if the id is listed and never otherwise |
| `CreateKb.AddPseudoAliases` | scripts/create_kb.py:87-90 | the pseudo-alias loop appends exactly the registrations of `PseudoAliasCalls`, in entity-list order |
| `CreateKb.CsvRows` | scripts/create_kb.py:103-104 | one row `[qid, description]` per key of the description dict, in its iteration order; every key heads exactly one row |
| `CreateKb.DescriptionRows` | scripts/create_kb.py:103-104 | the rows written by the loop are exactly those of `CsvRows` |
| `CreateKb.CsvRowsOfEntities` | scripts/create_kb.py:103-104 | the description file has one row per entity, in entity-key order, holding the id and its resolved description |
| `CreateKb.PopulationCalls` | scripts/create_kb.py:65-90 | given the vectors, one bulk entity call, then one alias registration per loaded alias and one per paired entity |
| `CreateKb.KbPlan` | scripts/create_kb.py:55-90 | the whole call sequence: one bulk entity call, then \|aliases\| + \|entities\| alias registrations |
| `CreateKb.PopulateKnowledgeBase` | scripts/create_kb.py:65-90 | given the vectors, the three loops append exactly the calls of `PopulationCalls` |
| `CreateKb.KbPlanEntities` | scripts/create_kb.py:55-74 | the first call registers all entities in key order; count i is entity i's count and vector i is the embedding of entity i's resolved description |
| `CreateKb.KbPlanPriorAliases` | scripts/create_kb.py:77-85 | the next calls are the loaded aliases in dict order with their projected lists, and each loaded alias is registered exactly once there |
| `CreateKb.KbPlanPseudoAliases` | scripts/create_kb.py:86-90 | the remaining calls are one pseudo alias per entity in key order, naming only that entity with probability 1, and each entity's pseudo alias appears exactly once there |
| `CreateKb.ParisScenario` | scripts/create_kb.py:80-85 | the alias "paris" with pairs (Q1, p), (Q4, q) is registered with candidates [Q1, Q4] and probabilities [p, q] in that order |
| `CreateKb.CreateKnowledgeBase` | scripts/create_kb.py:37-104 | a fresh knowledge base receives exactly the calls of `KbPlan`; the descriptions are the resolved ones; the rows are those of `CsvRows` for them |

## Left out

- Device selection and the CPU warning (scripts/create_kb.py:20-24): environment and accelerator calls.
- Loading the language pipeline and running inference (34, 55-64): foreign machine-learning calls. Inference is the parameter `embed`, one vector per text. The `n_process` parameter only affects how the library schedules work, so it is not modelled.
- The conversion of device arrays with `.get()` (69-70): a foreign conversion. The model keeps the vector unchanged.
- The knowledge-base library itself (14-17, 37-38): the version-dependent class choice, the vector-length argument, probability-sum checks, vector-length checks and alias-collision behaviour. The model records calls and gives them no meaning.
- Collisions between a loaded alias and a pseudo alias: the library decides what happens. The model only proves uniqueness within each group of calls.
- The loaders `wiki.load_entities` and `wiki.load_alias_entity_prior_probabilities` (42, 77-79): external collaborators. Their results are inputs.
- Serialisation and files (93-102): `kb.to_disk`, `nlp.to_disk`, `os.makedirs`, opening the CSV file and CSV quoting. Only the list of rows is modelled.
- Command-line wiring, progress bars and logging (33, 36, 57-63, 105, 108-109).
- Float semantics of vectors and probabilities: they are opaque type parameters.
- Strings are sequences of Unicode characters, so `[:200]` counts characters as Python does. No encoding is modelled.
