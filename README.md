# Schema retrieval and filtering for a graph question-answering pipeline

This project models, in Dafny, the part of the FL_project pipeline that turns a Neo4j graph into
prompt text for a language model. The pipeline answers questions about a smart home.

- **Reference retriever.** `Ufficiale/retriever.py` with its auto-queries (`Ufficiale/auto_queries.py`)
  and the pairing helper `get_list_embeddings`:
  - it runs a catalog of named introspection queries ("auto-queries") once and stores their
    results, paired with embeddings, as the *full schema*;
  - for each question it keeps the relevant entries (dense filtering: stable descending sort by
    similarity, stop at the threshold, cap at `k_lim`; `launch` entries re-run with the partial
    schema built so far);
  - it writes the chosen schema as text, leaving system labels out.
- **Earlier retrievers.** Versions 4 to 7 under `Enrico/`: lexical filtering, top-k without a
  threshold, the `'#'` and `'§'` group templates, sorted and unsorted groups, and the version-6
  catalog that the version-6 retriever cannot read.
- **Hand-rolled schema builders.** The three `genera_schema_strutturato` functions (two text
  builders and a JSON one) and the formatting helpers of the two `Versione_3` auto-query files.
- **Small pure helpers.** Reply cleanup (`complete_response`, `_extract_cypher_query`), chat
  history construction, the bounded few-shot buffer, the enhanced prompt and its retry loop, and
  the prompt and schema selectors.

The database, the embedding model and the language model are parameters: an executor is a function
from arguments to a result, `embed` maps a value to an embedding, and similarity is a given function
into `real`. Python dicts are ordered sequences of `(key, value)` pairs (`Values.Dict`), because
insertion order decides the rendering order. Exceptions are `Fail` results of a `Result` type
carrying the Python exception kind. Where Python leaves an order open (`list(set)`,
`random.shuffle`), the model takes it as a parameter (`Chance`, `Listing`).

Code that updates state step by step is modelled as methods with loops; each method is proved equal
to a specification function, and the properties are lemmas about that function:

- the retriever classes, with `fullSchema`/`filteredSchema` fields;
- the language-model classes, with `chatHistory`/`sysPrompt`;
- the pipeline class, with its few-shot buffer;
- the loops of the schema builders, the writers and the auto-queries.

The selectors and reply cleanups are pure functions.

Modules, one per file: `Wrappers`, `Text`, `Values`, `Order` and `Ranking` are the Python
building blocks. `Embedding`, `AutoQueries`, `Dense` and `Retriever` model the reference retriever.
`LegacyData`, `LegacyQueries`, `LegacySchema`, `Lexical`, `RetrieverV4`, `RetrieverV5`,
`RetrieverV6` and `CatalogV7` model the earlier retrievers. `FormattingV3`, `SchemaBuilders` and
`SchemaJson` model the schema builders. `LanguageModels`, `ZeroShot` and `Initialization` model the
helpers.

## Model

| member | source | states |
|---|---|---|
| Text.CleanStringClean | Enrico/Versione_6/retriever.py:13-27 | `clean_string` output has no upper-case letter, digit or punctuation character, and every other character of the lowered text still appears in it |
| Text.CleanStringIdempotent | Enrico/Versione_6/retriever.py:13-27 | cleaning a cleaned string changes nothing |
| Ranking.SortDescSorted | Ufficiale/retriever.py:143 | `sort(key, reverse=True)` yields a list in descending key order that is a permutation (same multiset) of the input |
| Ranking.SortDescStable | Ufficiale/retriever.py:143 | the sort is stable: for every key value, the items with that key appear in their input order |
| Embedding.Paired | Muci_Clinca_codice/embedding_model.py:49-57 | the pairing has the input's length; the i-th pair holds the i-th input and its own embedding (one call per element, duplicates included; empty in, empty out) |
| Embedding.PairedObjects | Muci_Clinca_codice/embedding_model.py:53-57 | dropping the embeddings gives back the input list exactly |
| Embedding.GetListEmbeddings | Muci_Clinca_codice/embedding_model.py:49-57 | the append loop computes the pairing `Paired` |
| Dense.RankedSpec | Ufficiale/retriever.py:136-143 | the ranking is descending, is a permutation of the scored items, scores each item by its own similarity, and is stable |
| Dense.SelectedPrefix | Ufficiale/retriever.py:146-151 | the scan keeps a prefix of the ranking that lies inside the run of scores above the threshold |
| Dense.TopAbove | Ufficiale/retriever.py:146-149 | every kept object is an input object whose similarity is strictly above the threshold |
| Dense.TopNoOutrank | Ufficiale/retriever.py:143-151 | no ranked item after the kept prefix has a higher similarity than a kept item |
| Dense.TopSpec | Ufficiale/retriever.py:136-152 | dense filtering returns a prefix of the stably ranked objects with the scores dropped; kept items score above the threshold; nothing left out outranks a kept item; exactly min(`k_lim`, the run of ranked items above the threshold) items when `k_lim >= 1`, the whole run otherwise; whenever the cap is not reached, everything after the prefix is at or below the threshold |
| Dense.TopUnlimited | Ufficiale/retriever.py:146-151 | with `k_lim <= 0` the length test never fires, so only the threshold stops the scan |
| Dense.TopComplete | Ufficiale/retriever.py:146-151 | without a cap every input item above the threshold is kept |
| Dense.TopKSpec | Enrico/Versione_6/retriever.py:161-167 | top-k without a threshold keeps a prefix of the ranking: the first `k_lim` items when `k_lim >= 1`, all of them otherwise, and nothing left out outranks a kept item |
| AutoQueries.PropertiesOfSpec | Ufficiale/auto_queries.py:22-35 | for an existing node, `get_properties` keeps exactly the entries whose key is not a system label, in their original order |
| AutoQueries.GetProperties | Ufficiale/auto_queries.py:22-35 | the pop loop computes `PropertiesOf`: the property dict minus the system keys, or TypeError for a missing node |
| AutoQueries.FetchedElementwise | Ufficiale/auto_queries.py:58-64 | fetching succeeds iff every name resolves, and then gives one property dict per name, in order |
| AutoQueries.FetchedFailExtends | Ufficiale/auto_queries.py:58-64 | the first failing fetch ends `object_properties` with that error, whatever follows |
| AutoQueries.ObjectPropertiesFirstNames | Ufficiale/auto_queries.py:38-66 | without shuffling, and when every name resolves, the result holds one dict per name for the first `min(c_lim, len(NAMES))` names in order, or for all names when `c_lim <= 0` |
| AutoQueries.ObjectProperties | Ufficiale/auto_queries.py:38-66 | the counter loop computes `ObjectPropertiesOf`: `[]` for a `None` schema, KeyError without NAMES, TypeError for a non-number `c_lim`, otherwise the fetches of the clamped prefix of a shuffled copy (the schema's list is never reordered) |
| AutoQueries.FetchNames | Ufficiale/auto_queries.py:58-64 | the loop that stops after the `c`-th name computes the fetch of `TakeUpTo(names, c_lim)` |
| AutoQueries.RelationshipNamesBound | Ufficiale/auto_queries.py:69-84 | every returned name is a relationship type that is not a system label; with `c_lim >= 1` at most `c_lim` names are returned |
| AutoQueries.RelationshipsNames | Ufficiale/auto_queries.py:69-84 | the loop with its early return yields the set of the first `c_lim` relationship types not listed as system labels (all of them when `c_lim < 1`), enumerated in an order given as a parameter |
| AutoQueries.LabelsOfSpec | Ufficiale/auto_queries.py:88-99 | a label is kept iff it is a database label whose lowercase form is not a system label; the result keeps the database order |
| AutoQueries.LabelsNames | Ufficiale/auto_queries.py:88-99 | the append loop computes `LabelsOf` |
| AutoQueries.CatalogShape | Ufficiale/auto_queries.py:108-129 | the catalog holds exactly NAMES, LABELS, OBJECT PROPERTIES and RELATIONSHIPS NAMES, each with a heading and a distinct executor; OBJECT PROPERTIES uses the `'list > dict'` format; RELATIONSHIPS VISUAL is absent |
| AutoQueries.Execute | Ufficiale/retriever.py:104-110 | `execute_read(function, *params)` runs the catalogued executor; extra arguments raise TypeError and missing ones take the declared defaults |
| Retriever.WriteListOfPairs | Ufficiale/retriever.py:14-25 | on embedded pairs `write_list` never fails and yields `head`, then `'\n' + item + obj` for each object whose lowercase text is not a system label, in input order |
| Retriever.WriteListDictFails | Ufficiale/retriever.py:21-22 | a bare dict in the list raises KeyError at `pair[0]` |
| Retriever.FailurePersists | Ufficiale/retriever.py:21-24 | once an element raised, the elements after it do not matter |
| Retriever.WriteList | Ufficiale/retriever.py:14-25 | the accumulation loop computes `WriteListText` |
| Retriever.PairsNeverDumped | Ufficiale/retriever.py:31-34 | embedded pairs are not dicts, so `write_list_of_dict` skips every one of them |
| Retriever.WriteListOfDict | Ufficiale/retriever.py:28-41 | the result is `head` followed by the JSON line of each element that is a dict whose lowercase JSON text is not a system label, in input order |
| Retriever.LaunchedSpec | Ufficiale/retriever.py:90-113 | a non-empty launch result comes from a catalogued executor, run in a known phase that lists the mode; an unknown phase, an unlisted mode and an exception give `[]` |
| Retriever.StoreAllKeys | Ufficiale/retriever.py:119-124 | after the init loop the keys are the old keys plus every required name |
| Retriever.StoreAllValue | Ufficiale/retriever.py:119-124 | a name holds what was stored for its last tuple |
| Retriever.InitFoldSpec | Ufficiale/retriever.py:119-124 | `init_full_schema` gives every required name a key and adds no other; a name holds the embedding pairs of the init-phase result of its last tuple |
| Retriever.FilterStepKeys | Ufficiale/retriever.py:163-187 | an entry that does not raise adds its own name to the partial dict's keys and no other key |
| Retriever.FilterFoldCrashStays | Ufficiale/retriever.py:182-185 | once an entry raised, later entries change nothing |
| Retriever.FilterFoldCrash | Ufficiale/retriever.py:182-184 | `filter_schema` raises iff some `launch` tuple has no slot 2, and then raises IndexError |
| Retriever.FilterFoldKeys | Ufficiale/retriever.py:161-189 | without an exception the filtered dict has exactly the required names as keys, in tuple order when they are distinct |
| Retriever.LaunchSeesEarlier | Ufficiale/retriever.py:182-185 | a `launch` entry receives, in slot 2, the partial dict holding exactly the names of the entries before it; its result is stored under its name |
| Retriever.FilterStepStored | Ufficiale/retriever.py:170-187 | a non-launch entry stores, under its name, what the mode dispatch keeps of its full-schema entry |
| Retriever.KeptSpec | Ufficiale/retriever.py:170-187 | `dense-klim` and `dense-both` store the embedded prefix of the ranking of exactly min(`k_lim`, the run above the limit) items, the limit being 0 or the threshold, and below the cap nothing left out is above the limit; `dense-klim`: all of similarity above 0; `dense-thresh`: exactly the items above the threshold; `dense-both`: above the threshold; any other mode passes the entry through |
| Retriever.ThresholdComplete | Ufficiale/retriever.py:146-151 | with `k_lim = 0` every item above the threshold survives |
| Retriever.FilterStepFull | Ufficiale/retriever.py:172-187 | one entry leaves the full schema alone or appends one absent name with `[]` (the defaultdict read) |
| Retriever.FilterFoldFull | Ufficiale/retriever.py:160-187 | `filter_schema` never changes an existing full-schema entry; it only appends absent names, each with `[]` |
| Retriever.TranscriptSpec | Ufficiale/retriever.py:191-233 | a transcript that succeeds starts with the intro (default `"\nHere's the database schema:"`), and every key of the chosen schema is catalogued; it fails iff some section fails |
| Retriever.SectionSpec | Ufficiale/retriever.py:209-231 | a section starts with a blank line and the heading (or the name); an uncatalogued name raises KeyError |
| Retriever.AsSchema | Ufficiale/retriever.py:196-198 | the full schema seen as the chosen schema has the same keys, in order, with the same pairs |
| Retriever.DataRetriever.constructor | Ufficiale/retriever.py:46-73 | a new retriever has an empty full schema, no filtered schema, and the given limits (defaults 10 and 0.65) |
| Retriever.DataRetriever.LaunchAutoQuery | Ufficiale/retriever.py:81-113 | returns `Launched`, the phase-gated executor result |
| Retriever.DataRetriever.InitFullSchema | Ufficiale/retriever.py:115-124 | the full schema becomes `InitFold` of the old one over the required tuples; the filtered schema is unchanged |
| Retriever.DataRetriever.ResetFilter | Ufficiale/retriever.py:126-127 | the filtered schema becomes a copy of the full schema, which is unchanged |
| Retriever.DataRetriever.DenseFiltering | Ufficiale/retriever.py:129-152 | returns `Top` of the results under the question's similarity (see `Dense.TopSpec`) |
| Retriever.DataRetriever.ReadFull | Ufficiale/retriever.py:172 | `full_schema[name]` on the defaultdict: reads the entry, inserting `[]` at the end when the name is absent |
| Retriever.DataRetriever.Dispatch | Ufficiale/retriever.py:170-187 | the `if`/`elif` chain stores `Kept` for the mode (see `Retriever.KeptSpec`) |
| Retriever.DataRetriever.FilterSchema | Ufficiale/retriever.py:154-189 | the full schema becomes the one left by the loop's defaultdict reads; the filtered schema is replaced by the fresh dict only when no entry raised; the exception is returned |
| Retriever.DataRetriever.TranscribeSchema | Ufficiale/retriever.py:191-233 | AttributeError when the filtered schema is still `None`; otherwise the transcript of the chosen schema |
| Retriever.ScanRanked | Ufficiale/retriever.py:144-152 | the scan with its two `break`s keeps the run above the threshold, cut after `k_lim` items |
| Retriever.WriteTranscript | Ufficiale/retriever.py:205-233 | the loop over the chosen schema computes `Transcript` |
| Retriever.TranscriptFailurePersists | Ufficiale/retriever.py:209-212 | once a section raised, later keys do not matter |
| Retriever.InitFoldBlank | Ufficiale/retriever.py:90-97 | when no tuple has a mode the init phase lists and the names are distinct, the full schema holds every name, in order, with `[]` |
| Retriever.SkippedStoresNothing | Ufficiale/retriever.py:95-97 | a tuple whose mode the init phase does not list stores `[]` |
| Retriever.StoreAllBlank | Ufficiale/retriever.py:119-124 | storing `[]` under distinct names gives every name in order with `[]` |
| Retriever.ReferenceConfigFull | Ufficiale/configuration.py:21-31 | under the reference configuration (modes `'init'` and `'filter'`) every full-schema entry is `[]`: NAMES, LABELS, OBJECT PROPERTIES, RELATIONSHIPS VISUAL |
| Retriever.SectionOfNothing | Ufficiale/retriever.py:209-231 | a catalogued entry with no results renders without error |
| Retriever.TranscriptOfNothing | Ufficiale/retriever.py:205-233 | a schema of catalogued, empty entries transcribes without error |
| Retriever.TranscriptFirstMissing | Ufficiale/retriever.py:209-211 | the first uncatalogued name after empty catalogued entries makes the transcript fail with KeyError |
| Retriever.BlankTranscript | Ufficiale/retriever.py:209-211 | an all-empty schema fails with KeyError at its first uncatalogued name |
| Retriever.ReferenceConfigTranscript | Ufficiale/retriever.py:205-211 | transcribing the full schema of the reference configuration fails with KeyError, because RELATIONSHIPS VISUAL is not in the catalog |
| Retriever.FilterFoldWellFormed | Ufficiale/retriever.py:161-189 | with every launch tuple long enough and distinct names, filtering never raises, and after `k` entries the partial dict holds exactly the first `k` names, in order |
| Retriever.LaterConfigShape | Enrico/Versione_8.7/configuration.py:50-56 | the later configuration has distinct names LABELS, NAMES, OBJECT PROPERTIES, RELATIONSHIPS NAMES, and its launch entry carries slot 2 |
| LegacyData.Touch | Enrico/Versione_6/retriever.py:186-190 | reading a `defaultdict(list)` returns the stored value, or inserts an empty list at the end for a missing key and returns it |
| LegacyData.PrintList | Enrico/Versione_5/retriever.py:34-41 | the loop returns the start text followed by `'\n' + head + str(element)` for each element that is not excluded, in input order |
| LegacyData.PrintedElements | Enrico/Versione_5/retriever.py:37-40 | a text gets a line iff it is the text of some element and is not a system label |
| LegacyData.GroupTextTemplate | Enrico/Versione_6/retriever.py:52-67 | a template without the separator gives `""`; otherwise the text is one line `heads[0] + key + heads[1] + str(group)` per key whose lowercase form is not a system label, in key order |
| LegacyData.WriteDictOfGroup | Enrico/Versione_6/retriever.py:45-67 | the loop over the keys computes `GroupText`, for the `'§'` template of version 6 and the `'#'` one of version 5 |
| LegacyData.SortedEnumeration | Enrico/Versione_5/retriever.py:75 | `sorted(list(group))` of a set is strictly increasing and holds exactly the set's members |
| LegacyData.SortedGroupLinesCanonical | Enrico/Versione_5/retriever.py:71-76 | with sorted groups the text does not depend on the order in which Python lists the sets |
| LegacyData.AvailableSpec | Enrico/Versione_6/retriever.py:95-111 | the required names are a subsequence of the request, all known to the catalog, and every known requested name is kept; without a request, all catalog names |
| LegacyData.InitAutoQueries | Enrico/Versione_6/retriever.py:95-111 | the loop that skips unknown names computes `Available` |
| LegacyData.LexicalKeep | Enrico/Versione_4/resources/filters.py:23-28 | the loop keeps exactly the results that match a question word |
| LegacyData.LexicalKeepSpec | Enrico/Versione_4/resources/filters.py:23-28 | a result is kept iff it is in the input and matches; the output is a subsequence of the input |
| LegacyQueries.AddLabelsSpec | Enrico/Versione_6/resources/auto_queries.py:29-32 | one record adds its property to the set of each of its labels, unless the property is excluded, and changes no other set |
| LegacyQueries.GroupedSpec | Enrico/Versione_6/resources/auto_queries.py:24-34 | props_per_label gives each label once, and maps it to exactly the non-excluded properties some record pairs it with (version 4 excludes nothing) |
| LegacyQueries.PropsPerLabel | Enrico/Versione_5/resources/auto_queries.py:71-81 | the record loop computes `Grouped` |
| LegacyQueries.Rows | Enrico/Versione_5/resources/auto_queries.py:90-97 | the example query returns at most `LIMIT` values, a prefix of the label's values, and all of them when there are no more |
| LegacyQueries.StoreLabelsSpec | Enrico/Versione_5/resources/auto_queries.py:89-108 | a record's labels with example rows are stored with those rows; other keys keep their value |
| LegacyQueries.ExampleDictSpec | Enrico/Versione_5/resources/auto_queries.py:84-110 | a label is stored iff some record names it and its query returns rows, and then maps to those rows |
| LegacyQueries.ExamplesPerLabel | Enrico/Versione_5/resources/auto_queries.py:84-110 | the nested loops compute `ExamplesResult`: a one-element list with the example dict, or the error of a negative `LIMIT` at the first label |
| LegacyQueries.StoreExamples | Enrico/Versione_5/resources/auto_queries.py:89-108 | the loop over one record's labels computes `StoreLabels` |
| LegacyQueries.StoreRows | Enrico/Versione_5/resources/auto_queries.py:96-108 | storing the growing list after each row leaves the label unstored without rows, and mapped to all rows otherwise |
| LegacyQueries.PatternSpec | Enrico/Versione_6/resources/auto_queries.py:96-109 | a pattern joins a non-system start label and a non-system end label by a non-system type, never a self-loop when `filter_mode >= 1`; an end without such labels or a system type gives nothing; in mode 0 every relation with both kinds of label gives a pattern |
| LegacyQueries.PatternSetSpec | Enrico/Versione_6/resources/auto_queries.py:89-111 | the collected set holds exactly the patterns of the individual relations |
| LegacyQueries.RelationshipsVisual | Enrico/Versione_6/resources/auto_queries.py:81-111 | the relation loop returns the pattern set, listed in the order Python iterates it |
| LegacyQueries.FilterLabels | Enrico/Versione_6/resources/auto_queries.py:96-97 | the comprehension keeps the labels whose lowercase form is not a system label |
| LegacyQueries.ClassHierarchy | Enrico/Versione_6/resources/auto_queries.py:114-123 | one line per SUBCLASSOF pair, in record order: a sentence in version 6, a Cypher-like pattern in version 7 |
| LegacyQueries.FetchAllSpec | Enrico/Versione_6/resources/auto_queries.py:53-60 | the fetches succeed iff each one does, and then give one result per name, in order |
| LegacyQueries.FetchFailSticks | Enrico/Versione_6/resources/auto_queries.py:53-60 | once a fetch fails, later names do not matter |
| LegacyQueries.ObjectFetchSpec | Enrico/Versione_6/resources/auto_queries.py:37-63 | with no schema the answer is `[]`; on success there is one object for each of the first `c_lim` names (all of them when `c_lim <= 0` or there are fewer names); each result is the fetch of the name at the same position of NAMES |
| LegacyQueries.ObjectFetchFails | Enrico/Versione_6/resources/auto_queries.py:53-60 | with a NAMES list, the answer fails iff one of the fetched names fails |
| LegacyQueries.FetchObject | Enrico/Versione_6/resources/auto_queries.py:66-78 | `get_properties` (or version 7's `get_class`) for one name: the property dict without system keys, TypeError for a missing node |
| LegacyQueries.ObjectQuery | Enrico/Versione_7/utilities/auto_queries.py:51-73 | the counter loop of object_properties and object_classes computes `ObjectFetch`: `[]` for no schema or a NAMES that is not a list, KeyError without NAMES, else the fetches of the first `c_lim` names |
| LegacyQueries.NodePropsSpec | Enrico/Versione_5/resources/auto_queries.py:157-173 | `node_properties` gives `{}` for a missing node, and otherwise a one-element list holding exactly the node's non-system properties |
| LegacyQueries.NodeProperties | Enrico/Versione_5/resources/auto_queries.py:157-173 | the pop loop computes `NodePropsOf` |
| LegacyQueries.RelationshipsVisualRun | Enrico/Versione_5/resources/auto_queries.py:113-140 | bound to an integer mode the query returns the listed pattern set; called without its mode it raises TypeError |
| LegacyQueries.PropsPerLabelRun | Enrico/Versione_5/resources/auto_queries.py:71-81 | props_per_label returns the grouping wrapped in a one-element list |
| LegacyQueries.NodePropertiesRun | Enrico/Versione_5/resources/auto_queries.py:157-173 | node_properties bound to a name returns that node's properties, or `{}` |
| LegacyQueries.ExamplesPerLabelRun | Enrico/Versione_5/resources/auto_queries.py:84-110 | examples_per_label bound to limits and a property collects up to the first limit of values per label |
| LegacyQueries.SecondLimitUnused | Enrico/Versione_5/resources/auto_queries.py:84-110 | the second limit is never read: any value gives the same result |
| LegacyQueries.Execute | Enrico/Versione_6/retriever.py:113-126 | `execute_read(action, *params)` runs the executor; a wrong number of arguments raises TypeError, and an ill-typed argument fails only where the body evaluates it |
| LegacyQueries.NodePropertiesIntName | Enrico/Versione_5/resources/auto_queries.py:157-162 | node_properties puts `str` of its argument into the query: an int names the node spelled by its digits, None the node named `None` |
| LegacyQueries.ExamplesNoLabel | Enrico/Versione_5/resources/auto_queries.py:84-110 | records without labels leave the examples dict empty, for every limit and property |
| LegacyQueries.ExamplesArgsUnread | Enrico/Versione_5/resources/auto_queries.py:84-110 | without a labelled record the arguments are never read: the answer is the one any limits and property give |
| LegacyQueries.ExamplesIllTypedLimits | Enrico/Versione_5/resources/auto_queries.py:89-94 | once a record has a label, `limits[0]` raises TypeError for an int or None, KeyError for a schema dict, IndexError for an empty string; a string starting with a digit limits the query to that digit |
| LegacyQueries.NoPatternWithoutModeTest | Enrico/Versione_5/resources/auto_queries.py:120-138 | when no relationship passes the label and type checks, no mode yields a pattern |
| LegacyQueries.ModeTestGivesPattern | Enrico/Versione_5/resources/auto_queries.py:120-138 | a relationship passing the label and type checks yields a pattern in mode 0 |
| LegacyQueries.RelationshipsVisualIllTyped | Enrico/Versione_5/resources/auto_queries.py:113-140 | a `filter_mode` that is not an int raises TypeError iff mode 0 would return a pattern (a relationship reaches `filter_mode >= 1`); otherwise the answer is `[]` and no int mode has a pattern either |
| LegacyQueries.ObjectLimitNotInt | Enrico/Versione_6/resources/auto_queries.py:53-60 | a `c_lim` that is not an int never equals the counter: the result is that of `c_lim = 0`, one fetch per name of NAMES |
| LegacySchema.RenderingWip | Enrico/Versione_6/retriever.py:227-228 | `list > dict` writes exactly the `list` text between two `'\n**WIP**'` markers, and fails exactly when it does |
| LegacySchema.RenderingGroups | Enrico/Versione_6/retriever.py:229-231 | `dict > group` writes the group text of `response[0]` with the entry's template: `""` without the separator |
| LegacySchema.Render | Enrico/Versione_6/retriever.py:222-233 | the `if`/`elif` chain on the results key computes `Rendering` |
| LegacySchema.TranscriptSpec | Enrico/Versione_6/retriever.py:194-236 | a written schema starts with the intro (default `"\nHere's the database schema:"`), and succeeds iff every section does |
| LegacySchema.SectionSpec | Enrico/Versione_6/retriever.py:211-220 | a section starts with `'\n\n'` and the heading or name; a name missing from the catalog raises KeyError; it fails iff the name is not catalogued or its results cannot be rendered |
| LegacySchema.WriteTranscript | Enrico/Versione_5/retriever.py:224-265 | the loop over the chosen schema's keys computes `Transcript` |
| LegacySchema.DenseKeptSpec | Enrico/Versione_6/retriever.py:149-167 | top-k without a threshold: a prefix of the stably ranked results, of length `min(k_lim, n)` (all when `k_lim <= 0`), nothing left out outranking a kept item; `{}` gives `[]`; an unread cursor fails |
| LegacySchema.DenseTopK | Enrico/Versione_6/retriever.py:149-167 | the scoring and scan loops compute `DenseKept` |
| LegacySchema.ScanTopK | Enrico/Versione_6/retriever.py:162-166 | the append-then-test loop keeps the first `k_lim` ranked items (all of them when `k_lim <= 0`) |
| LegacySchema.InitPassDone | Enrico/Versione_5/retriever.py:137-143 | without an exception every executed required name holds its own result, and no other key changes |
| LegacySchema.InitPassCrash | Enrico/Versione_5/retriever.py:137-143 | an exception comes from the first required name whose query raised; with none, every query ran |
| LegacySchema.InitPassCrashSticks | Enrico/Versione_5/retriever.py:137-143 | once a query raised, later names do not matter |
| LegacySchema.FilterPassFull | Enrico/Versione_5/retriever.py:164-170 | filtering only appends missing names to the full schema, each with `[]`, and never changes what a name reads |
| LegacySchema.FilterPassDone | Enrico/Versione_5/retriever.py:156-172 | without an exception the filtered dict has exactly the required names as keys, each mapped to its own filtering outcome |
| LegacySchema.FilterPassCrash | Enrico/Versione_5/retriever.py:156-172 | the pass raises iff some outcome fails, and then raises the error of the first failing name |
| LegacySchema.FilterPassAllOk | Enrico/Versione_5/retriever.py:156-172 | a pass without exception means every required name's outcome succeeded |
| LegacySchema.FilterPassFirstCrash | Enrico/Versione_5/retriever.py:156-172 | a raised error is that of the first failing name, all names before it succeeding |
| LegacySchema.FilterPassCrashSticks | Enrico/Versione_5/retriever.py:156-172 | once a name raised, later names do not matter |
| RetrieverV4.CatalogShape | Enrico/Versione_4/resources/auto_queries.py:123-180 | the eight catalog names, in order; only NAMES is filtered, lexically; both group entries run props_per_label without exclusion |
| RetrieverV4.PrintListV4 | Enrico/Versione_4/retriever.py:14-21 | the loop computes the version 4 list text |
| RetrieverV4.ListTextSpec | Enrico/Versione_4/retriever.py:9-21 | an element gets a line iff its text is not exactly one of the five system names; the test is case-sensitive, so `resource` is printed and `Resource` is not |
| RetrieverV4.PreparedSpec | Enrico/Versione_4/retriever.py:68-86 | preparing succeeds iff every catalogued part does, and the result extends the start text |
| RetrieverV4.PreparedSkip | Enrico/Versione_4/retriever.py:68-70 | a name without a part leaves the text as if it were absent |
| RetrieverV4.SchemaTextSpec | Enrico/Versione_4/retriever.py:58-86 | corrected reading (the resources catalog, see Findings): the schema text succeeds iff every catalogued name's part does, and starts with `'\n'` and the intro (default `"Here's the database schema:"`) |
| RetrieverV4.WholeCatalogByDefault | Enrico/Versione_4/retriever.py:60-61 | corrected reading: no tuple means every catalog name, in catalog order |
| RetrieverV4.UnknownNameSkipped | Enrico/Versione_4/retriever.py:68-70 | corrected reading: a name missing from the catalog is skipped silently |
| RetrieverV4.PartSkipped | Enrico/Versione_4/retriever.py:68-75 | corrected reading: a name contributes a part iff it is in the resources catalog |
| RetrieverV4.GroupWrittenRaw | Enrico/Versione_4/retriever.py:79-84 | a `dict > group` entry falls into the `else` branch: `'\n\n' + name + '\n' + str(response)` |
| RetrieverV4.GroupsWrittenRaw | Enrico/Versione_4/resources/auto_queries.py:166-179 | corrected reading: PROPS_PER_LABEL and EXAMPLES_PER_LABEL are both written as the raw grouping |
| RetrieverV4.ImportedLacksCatalog | Enrico/Versione_4/res/auto_queries.py:6-48 | the class imported as AQ has no `global_aq_dict`; the resources class has one |
| RetrieverV4.PrepareAsWrittenFails | Enrico/Versione_4/retriever.py:58-59 | as written, prepare_schema raises AttributeError for every request; with the resources class it is `SchemaText`, and an empty request gives `'\n'` and the default intro |
| RetrieverV4.PrepareSchema | Enrico/Versione_4/retriever.py:58-86 | for an AQ class with the given attributes the method computes `SchemaTextOf`: AttributeError with the imported class, for every input; the corrected `SchemaText` with the resources class |
| RetrieverV4.PrepareNames | Enrico/Versione_4/retriever.py:68-84 | corrected reading: the loop over names computes `Prepared` |
| RetrieverV4.PrepareEntry | Enrico/Versione_4/retriever.py:69-84 | corrected reading: one name adds its part, or nothing when it is not in the resources catalog |
| RetrieverV4.PreparedStuck | Enrico/Versione_4/retriever.py:68-84 | once a part raised, later names do not matter |
| RetrieverV4.SelectorsSpec | Enrico/Versione_4/retriever.py:37-56 | selector 1 picks the first prompt set; every other value picks the testing prompts, exactly as 0 does |
| RetrieverV4.Initialize | Enrico/Versione_4/retriever.py:102-108 | the question prompt is the testing instructions followed by the schema text; the answer prompt is the testing one; a schema error propagates, so as written (AQ the imported class) it is AttributeError for every input |
| RetrieverV5.CatalogShape | Enrico/Versione_5/resources/auto_queries.py:205-290 | the twelve catalog names, in order; NAMES and CLASSES are `dense`, NODES_WITH_PROPS is `node_props`, none is `lexical`, and EXAMPLES_PER_LABEL's `dense-2` is not dispatched |
| RetrieverV5.InitSpec | Enrico/Versione_5/retriever.py:130-143 | without an exception each required name holds its own query's result and other keys are unchanged; an exception is that of a required name's query |
| RetrieverV5.RelationshipsVisualBound | Enrico/Versione_5/resources/auto_queries.py:269-275 | RELATIONSHIPS VISUAL runs in mode 0 |
| RetrieverV5.NodePropertiesBound | Enrico/Versione_5/resources/auto_queries.py:276-282 | NODE PROPERTIES runs for `'Lamp_38'` |
| RetrieverV5.ExamplesBound | Enrico/Versione_5/resources/auto_queries.py:262-268 | EXAMPLES_PER_LABEL runs with limit 50 on property `name` |
| RetrieverV5.NodeDictsSpec | Enrico/Versione_5/retriever.py:185-193 | one property dict per name, in order, holding exactly its non-system properties; a missing node raises KeyError at `node_props[0]` of `{}` |
| RetrieverV5.NodeDictsStuck | Enrico/Versione_5/retriever.py:188-191 | once a name raised, later names do not matter |
| RetrieverV5.OutcomeSpec | Enrico/Versione_5/retriever.py:158-170 | `lexical`, `node_props` and `dense` entries are filtered, any other mode passes the stored value through, and an uncatalogued name raises KeyError |
| RetrieverV5.FilterSpec | Enrico/Versione_5/retriever.py:148-172 | the pass succeeds iff every outcome does, and then keys exactly the required names to their outcomes; an error is that of the first failing name |
| RetrieverV5.DataRetriever.constructor | Enrico/Versione_5/retriever.py:83-90 | empty full schema, no filtered schema, required names as `init_auto_queries` keeps them |
| RetrieverV5.DataRetriever.InitGlobalSchema | Enrico/Versione_5/retriever.py:130-143 | the full schema becomes `InitPass` of the old one over the required names; the error is returned |
| RetrieverV5.DataRetriever.InitEntry | Enrico/Versione_5/retriever.py:137-143 | one name stores its query's result |
| RetrieverV5.DataRetriever.ResetFilter | Enrico/Versione_5/retriever.py:145-146 | the filtered schema becomes the full schema, unchanged |
| RetrieverV5.DataRetriever.ReadFull | Enrico/Versione_5/retriever.py:164-170 | `full_schema[name]` on the defaultdict |
| RetrieverV5.DataRetriever.NodePropsFiltering | Enrico/Versione_5/retriever.py:174-193 | returns `NodePropsKept`: the property dicts of the lexically kept names |
| RetrieverV5.DataRetriever.DenseFiltering | Enrico/Versione_5/retriever.py:207-222 | returns `DenseKept` (see `LegacySchema.DenseKeptSpec`) |
| RetrieverV5.DataRetriever.FilterSchema | Enrico/Versione_5/retriever.py:148-172 | full schema as left by the reads; the filtered schema is replaced only when no entry raised |
| RetrieverV5.DataRetriever.FilterEntry | Enrico/Versione_5/retriever.py:158-170 | one name is one `FilterStep` |
| RetrieverV5.DataRetriever.WriteSchema | Enrico/Versione_5/retriever.py:224-265 | AttributeError when nothing was filtered yet; otherwise the transcript of the chosen schema with the `'#'` template and sorted groups |
| RetrieverV6.CatalogShape | Enrico/Versione_6/resources/auto_queries.py:133-176 | the six catalog names, in order; NAMES, RELATIONSHIPS VISUAL and CLASS HIERARCHY are `dense`; no entry is `exec` and none binds parameters |
| RetrieverV6.InitAsWrittenFails | Enrico/Versione_6/retriever.py:135-142 | as written, the first required catalogued name that is not `exec` raises AttributeError at `AQ.func_key`, so initialisation stores nothing |
| RetrieverV6.DataRetriever.InitFullSchema | Enrico/Versione_6/retriever.py:128-144 | the full schema becomes the as-written `InitPass` and its error is returned |
| RetrieverV6.RunnerStep | Enrico/Versione_6/retriever.py:135-144 | the corrected initialisation skips `exec` entries and runs the others, KeyError for an uncatalogued name |
| RetrieverV6.InitCorrectedSpec | Enrico/Versione_6/retriever.py:128-144 | with the executor read under its real key, a pass without exception stores each required name's result and changes no other key |
| RetrieverV6.CatalogArgs | Enrico/Versione_6/resources/auto_queries.py:133-176 | no catalog entry binds parameters |
| RetrieverV6.CatalogEntry | Enrico/Versione_6/resources/auto_queries.py:133-176 | no entry is `exec`, and exactly three are `dense` |
| RetrieverV6.RelationshipsVisualNeedsMode | Enrico/Versione_6/resources/auto_queries.py:155-160 | RELATIONSHIPS VISUAL is catalogued without its mode, so running it raises TypeError |
| RetrieverV6.FilterExecUnreached | Enrico/Versione_6/retriever.py:187-188 | the `exec` branch, which reads the missing key, never runs, because no entry is `exec` |
| RetrieverV6.OutcomeV6 | Enrico/Versione_6/retriever.py:181-190 | `dense` entries get top-k, the others pass through; an uncatalogued name raises KeyError |
| RetrieverV6.FilterSpec | Enrico/Versione_6/retriever.py:169-192 | the pass succeeds iff every name is catalogued and no dense entry holds a cursor; then it keys exactly the required names to their outcomes |
| RetrieverV6.DataRetriever.constructor | Enrico/Versione_6/retriever.py:72-87 | empty full schema, no filtered schema, the given `k_lim`, required names as `init_auto_queries` keeps them |
| RetrieverV6.DataRetriever.InitFullSchemaCorrected | Enrico/Versione_6/retriever.py:128-144 | the full schema becomes the corrected `InitPass` |
| RetrieverV6.DataRetriever.InitEntry | Enrico/Versione_6/retriever.py:135-144 | one name stores its query's result, or nothing for `exec` |
| RetrieverV6.DataRetriever.ResetFilter | Enrico/Versione_6/retriever.py:146-147 | the filtered schema becomes the full schema, unchanged |
| RetrieverV6.DataRetriever.DenseFiltering | Enrico/Versione_6/retriever.py:149-167 | returns `DenseKept` |
| RetrieverV6.DataRetriever.ReadFull | Enrico/Versione_6/retriever.py:186-190 | `full_schema[name]` on the defaultdict |
| RetrieverV6.DataRetriever.FilterSchema | Enrico/Versione_6/retriever.py:169-192 | the filtered schema is replaced only when no entry raised |
| RetrieverV6.DataRetriever.FilterEntry | Enrico/Versione_6/retriever.py:179-190 | one name is one `FilterStep` |
| RetrieverV6.DataRetriever.WriteSchema | Enrico/Versione_6/retriever.py:194-236 | AttributeError when nothing was filtered yet; otherwise the transcript with the `'§'` template and unsorted groups |
| CatalogV7.CatalogModes | Enrico/Versione_7/utilities/auto_queries.py:166-209 | NAMES is `dense-thresh`, the next three are `dense-sort`, OBJECT PROPERTIES and OBJECT CLASSES are `launch`; no entry binds parameters |
| Lexical.QuestionWordsV5Spaced | Enrico/Versione_5/retriever.py:197 | splitting on `'_'` and `'` and rejoining with spaces equals replacing those characters by spaces |
| Lexical.CleanWords | Enrico/Versione_5/retriever.py:15-31 | every question word is non-empty and holds only cleaned characters |
| Lexical.DigitPartNeverMatches | Enrico/Versione_5/retriever.py:197-201 | an empty `'_'`-part, or one holding a digit, never equals a question word |
| Lexical.MatchesNeedsLetters | Enrico/Versione_5/retriever.py:197-201 | a result matches iff one of its non-empty, digit-free `'_'`-parts, lowercased, is a question word |
| Lexical.TextsSpec | Enrico/Versione_5/retriever.py:200-201 | splitting works iff every element is a text; otherwise AttributeError |
| Lexical.LexicalV5Spec | Enrico/Versione_5/retriever.py:196-205 | succeeds iff the results are a list of texts (or `{}`, giving `[]`); keeps exactly the matching results, as a subsequence |
| Lexical.LexicalFilteringV5 | Enrico/Versione_5/retriever.py:196-205 | the loop computes `LexicalV5` |
| Lexical.LexicalV4Spec | Enrico/Versione_4/resources/filters.py:20-28 | keeps, as a subsequence, exactly the results with a non-empty digit-free `'_'`-part equal to a question word |
| Lexical.LexicalFilteringV4 | Enrico/Versione_4/resources/filters.py:20-28 | the loop computes the V4 filter |
| Initialization.SelectedAnyCase | Enrico/Versione_1/initialization.py:73 | a letter selects its part whether the selector writes it upper- or lower-case, because the selector is upper-cased first |
| Initialization.SelectSchemaSpec | Enrico/Versione_1/initialization.py:72-83 | the schema is the house, graph and example parts, in that order, each present iff its letter (either case) is in the selector; a selector without H, G or E gives the empty text |
| Initialization.SelectSchemaLetters | Enrico/Versione_1/initialization.py:72-83 | the schema depends only on which characters the selector holds, not on their order, repetition or case |
| Initialization.SelectPromptSpec | Enrico/Versione_1/initialization.py:131-140 | the prompt is the zero-shot prompt, the schema, then the instruction and examples parts as selected; it always starts with the zero-shot prompt and the schema |
| Initialization.SelectAnswerV1Constant | Enrico/Versione_1/initialization.py:143-148 | both branches give the first answer prompt, whatever the selector |
| Initialization.SimpleInitSpec | Enrico/Versione_1/initialization.py:151-154 | the pair is the selected prompt built around the selected schema, and the first answer prompt |
| Initialization.SelectAnswerV3Spec | Enrico/Versione_3/initialization.py:36-44 | the second answer prompt is chosen iff the selector holds `'1'` and not `'0'`; otherwise the first |
| Initialization.InitializeDefaults | Enrico/Versione_3/initialization.py:49-73 | no selectors means `('ghe', 'ei', 's')`: the whole schema plus its augmentation, the instruction and the examples, and the first answer prompt plus its augmentation |
| LanguageModels.WithExamplesOk | Ufficiale/language_model.py:117-120 | the examples are added iff each has both `user_query` and `cypher_query`; a missing key raises KeyError |
| LanguageModels.WithExamplesShape | Ufficiale/language_model.py:104-122 | with complete examples, the history keeps its start and adds one user message and one assistant message per example, in order, carrying that example's question and query |
| LanguageModels.WithExamplesStuck | Ufficiale/language_model.py:117-120 | once an example fails, the later examples change nothing: the first failure is the result |
| LanguageModels.AppendExamples | Ufficiale/language_model.py:116-122 | no examples leaves the history as it is; otherwise the loop computes `WithExamples` |
| LanguageModels.InitialHistorySpec | Ufficiale/language_model.py:104-122 | the history is the system prompt followed by two messages per example, and it fails iff some example is incomplete |
| LanguageModels.LanguageModel.constructor | Ufficiale/language_model.py:60-85 | stores the model name, the system prompt and the history flag with an empty history |
| LanguageModels.LanguageModel.New | Ufficiale/language_model.py:60-85 | the default system prompt when none is given; the object holds the initial history, or construction fails with the history's error |
| LanguageModels.LanguageModel.InitHistory | Ufficiale/language_model.py:104-122 | the system prompt then the examples' messages |
| LanguageModels.LanguageModel.LaunchChat | Ufficiale/language_model.py:124-137 | an update replaces the system prompt; the messages sent are the history, the system prompt and the query; the history keeps them only when updating is on; nothing else changes |
| LanguageModels.HistoryGrowth | Ufficiale/language_model.py:131-137 | a chat grows the history by exactly two messages when updating is on, by none otherwise, and never rewrites what was there |
| LanguageModels.CompleteResponseSpec | Ufficiale/language_model.py:170-180 | models outside the thinking list return the response unchanged; for a thinking model the call succeeds iff `<think>` occurs and `</think>` follows it, the result is what follows the first `</think>` after the first `<think>`, and failure is ValueError |
| LanguageModels.CompleteResponseRoundTrip | Ufficiale/language_model.py:174-178 | wrapping any reasoning in the think tags before an answer gives back exactly that answer |
| LanguageModels.FallbackSpec | Enrico/Versione_5/language_model.py:86-98 | the requested name when it is installed, else the first installed one; it fails iff nothing is installed |
| LanguageModels.LanguageModelV5.constructor | Enrico/Versione_5/language_model.py:63-98 | stores the model, embedder, prompt, history and flag as given |
| LanguageModels.LanguageModelV5.New | Enrico/Versione_5/language_model.py:63-98 | the model is resolved first, then the history, then the embedder; the first of these to fail decides the error, otherwise the object holds all three |
| LanguageModels.LanguageModelV5.LaunchChat | Enrico/Versione_5/language_model.py:119-132 | as in the reference model; the model and embedder are unchanged |
| LanguageModels.AlternatingRoles | Enrico/Versione_8.7/language_model.py:84-98 | complete examples give a history of even length whose roles alternate user, assistant |
| LanguageModels.LanguageModelV8.constructor | Enrico/Versione_8.7/language_model.py:43-64 | stores the model name, prompt and example history |
| LanguageModels.LanguageModelV8.New | Enrico/Versione_8.7/language_model.py:43-64 | the default prompt when none is given; the history holds only the examples' messages, or construction fails with their error |
| LanguageModels.LanguageModelV8.InitExamples | Enrico/Versione_8.7/language_model.py:84-98 | two alternating messages per complete example and no system message |
| LanguageModels.LanguageModelV8.LaunchChat | Enrico/Versione_8.7/language_model.py:100-112 | the messages sent are the current system prompt, the example history and the query; the history is never changed |
| LanguageModels.CompleteResponseV8Stripped | Enrico/Versione_8.7/language_model.py:144-161 | a successful result has no leading or trailing whitespace |
| LanguageModels.CompleteResponseV8Fails | Enrico/Versione_8.7/language_model.py:155-158 | it fails, with ValueError, iff there is no `</think>` but a cypher fence is opened and never closed |
| LanguageModels.CompleteResponseV8Think | Enrico/Versione_8.7/language_model.py:150-154 | the text after the first `</think>`, stripped |
| LanguageModels.CompleteResponseV8Fence | Enrico/Versione_8.7/language_model.py:155-158 | with no think tag, the stripped body of the first cypher fence |
| ZeroShot.LastShotsSpec | Nicolas/zero_shot_claude.py:299-300 | the kept examples are the last five, or all of them when there are fewer |
| ZeroShot.LastShotsTrim | Nicolas/zero_shot_claude.py:292-300 | trimming after every addition keeps the same examples as trimming once at the end |
| ZeroShot.RagPipeline.constructor | Nicolas/zero_shot_claude.py:165-170 | no examples and no schema yet |
| ZeroShot.RagPipeline.Initialize | Nicolas/zero_shot_claude.py:172-176 | the schema becomes the one read from the database; the examples are unchanged |
| ZeroShot.RagPipeline.AddFewShotExample | Nicolas/zero_shot_claude.py:292-300 | the new example is appended and the list cut to its last five, so it is always the last one kept; the schema is unchanged |
| ZeroShot.RagPipeline.BuildSchemaInfo | Nicolas/zero_shot_claude.py:182-197 | the schema section of the prompt |
| ZeroShot.PatternsCapped | Nicolas/zero_shot_claude.py:188-191 | patterns beyond the first ten never reach the prompt |
| ZeroShot.CapProps | Nicolas/zero_shot_claude.py:194-197 | every label is kept, in order, with at most five properties |
| ZeroShot.LabelPropsCapped | Nicolas/zero_shot_claude.py:194-197 | properties beyond the first five of a label never reach the prompt |
| ZeroShot.PatternShown | Nicolas/zero_shot_claude.py:188-218 | each of the first ten patterns appears in the prompt |
| ZeroShot.EnhancedPromptFrame | Nicolas/zero_shot_claude.py:199-226 | the prompt starts with the fixed introduction and ends with the fixed closing line |
| ZeroShot.ExamplesOnlyWhenAsked | Nicolas/zero_shot_claude.py:221-224 | examples change the prompt only when asked for and present, and then every stored example appears in it |
| ZeroShot.ExampleShown | Nicolas/zero_shot_claude.py:221-224 | each stored example's question and query appear in the prompt that includes examples |
| ZeroShot.AppendEach | Nicolas/zero_shot_claude.py:188-191 | the loop appends each element's line, in order |
| ZeroShot.RagPipeline.BuildEnhancedCypherPrompt | Nicolas/zero_shot_claude.py:178-227 | the prompt for the stored rules and examples |
| ZeroShot.ExtractCypherQuery | Nicolas/zero_shot_claude.py:229-255 | the loop version computes `Extract` |
| ZeroShot.KeptLineClean | Nicolas/zero_shot_claude.py:242-247 | a kept line is the stripped source line and is neither empty nor a comment |
| ZeroShot.QueryLinesFrom | Nicolas/zero_shot_claude.py:242-247 | every kept line comes from some input line |
| ZeroShot.QueryLinesKeep | Nicolas/zero_shot_claude.py:242-247 | every non-empty, non-comment input line is kept |
| ZeroShot.CutAtSemicolonSpec | Nicolas/zero_shot_claude.py:252-253 | with a semicolon, the result is the prefix up to and including the first one; without, the query is unchanged |
| ZeroShot.OneLine | Nicolas/zero_shot_claude.py:242-253 | a single clean line goes through the line filtering unchanged |
| ZeroShot.FencedMatch | Nicolas/zero_shot_claude.py:235-239 | the fence search finds the body of a cypher fence preceded by no backtick |
| ZeroShot.ExtractFenced | Nicolas/zero_shot_claude.py:229-255 | a query in a cypher fence is extracted exactly, cut at its first semicolon |
| ZeroShot.ExtractPlain | Nicolas/zero_shot_claude.py:229-255 | a one-line clean query with no fence and no semicolon is returned unchanged |
| ZeroShot.ContextSpec | Nicolas/zero_shot_claude.py:269-271 | the context starts with the question; with no previous error it is the question alone, otherwise the error appears in it |
| ZeroShot.RagPipeline.TryOnce | Nicolas/zero_shot_claude.py:264-288 | one attempt: ask the model, extract the query, run it; any exception becomes the error fed to the next attempt |
| ZeroShot.AttemptPrompts | Nicolas/zero_shot_claude.py:264-277 | the first attempt ignores the examples and sends the bare question; later ones include the examples and the previous error; a query whose execution raises fails the attempt |
| ZeroShot.RetryOutcome | Nicolas/zero_shot_claude.py:257-290 | failure returns the empty query; success returns a query some attempt within the limit produced |
| ZeroShot.RetryAllFail | Nicolas/zero_shot_claude.py:282-290 | when every attempt raises, the result is `('', False)` |
| ZeroShot.RetryFeedsError | Nicolas/zero_shot_claude.py:282-288 | a failed attempt that is not the last passes its message to the next one |
| ZeroShot.RetryWithoutSchema | Nicolas/zero_shot_claude.py:257-290 | without `initialize` every attempt fails, so the result is `('', False)` |
| ZeroShot.RagPipeline.GenerateCypherQueryWithRetry | Nicolas/zero_shot_claude.py:257-290 | the loop computes the retry specification over the stored schema and examples |
| FormattingV3.RemovePrefix | Nicolas/Versione_3_Enrico/res/auto_queries.py:12-22 | the given prefixes, or by default the four ontology prefixes, are deleted everywhere, one after the other |
| FormattingV3.RemoveEachSplit | Nicolas/Versione_3_Enrico/res/auto_queries.py:20-21 | removing two lists of prefixes in turn equals removing their concatenation |
| FormattingV3.DeleteShrinks | Nicolas/Versione_3_Enrico/res/auto_queries.py:21 | deleting a text never lengthens the schema, and deleting the empty text changes nothing |
| FormattingV3.RemoveEachShrinks | Nicolas/Versione_3_Enrico/res/auto_queries.py:17-22 | removing prefixes never lengthens the schema |
| FormattingV3.RemoveEachAbsent | Nicolas/Versione_3_Enrico/res/auto_queries.py:17-22 | a schema holding none of the prefixes is unchanged |
| FormattingV3.CollectedSpec | Nicolas/Versione_3_Enrico/res/auto_queries.py:85-102 | a key is collected for a name iff some record of that name returned it |
| FormattingV3.CollectedOwn | Nicolas/Versione_3_Enrico/res/auto_queries.py:100-102 | with distinct names, a name collects exactly its own record's keys |
| FormattingV3.CollectedDistinct | Nicolas/Versione_3_Enrico/res/auto_queries.py:100-102 | with distinct names, a name's set is the set of its own keys |
| FormattingV3.AddAll | Nicolas/Versione_3_Enrico/res/auto_queries.py:101-102 | adding keys to the default dictionary enlarges that name's set and leaves the others |
| FormattingV3.PropsTextSpec | Nicolas/Versione_3_Enrico/res/auto_queries.py:104 | the sorted keys joined by commas, and `no properties` when that join is empty; the sorting is strict and keeps exactly the keys |
| FormattingV3.FormatKeys | Nicolas/Versione_3_Enrico/res/auto_queries.py:104 | the loop computes that text |
| FormattingV3.GetProperties | Nicolas/Versione_3_Enrico/res/auto_queries.py:79-107 | the header followed by one line per label record, each showing the keys collected so far for that label |
| FormattingV3.AddProperties | Nicolas/Versione_3_Enrico/res/auto_queries.py:100-105 | one label's keys are added and its line is written from the enlarged set |
| FormattingV3.PropertiesTextDistinct | Enrico/Versione_3/res/auto_queries.py:43-71 | with distinct labels, each label's line shows exactly its own keys |
| FormattingV3.PatternLineShown | Nicolas/Versione_3_Enrico/res/auto_queries.py:152-153 | every direction of a type is written as its own pattern line |
| FormattingV3.AppendPatterns | Nicolas/Versione_3_Enrico/res/auto_queries.py:152-153 | the loop appends one pattern line per direction, in the given order |
| FormattingV3.AddDirections | Nicolas/Versione_3_Enrico/res/auto_queries.py:145-148 | each record's labels are joined with `:` and the pair added to the type's direction set |
| FormattingV3.GetRelationships | Nicolas/Versione_3_Enrico/res/auto_queries.py:111-155 | the header followed, per relationship type, by the pattern lines of its collected directions and properties |
| FormattingV3.AddRelationship | Nicolas/Versione_3_Enrico/res/auto_queries.py:125-153 | one type's keys and directions are added and its pattern lines written from the enlarged sets |
| FormattingV3.DirectionsFound | Nicolas/Versione_3_Enrico/res/auto_queries.py:144-148 | a direction is collected for a type iff some record of that type has those joined labels |
| FormattingV3.PatternListed | Enrico/Versione_3/res/auto_queries.py:74-112 | every collected direction of the last type is written in the text of that type with its collected properties |
| FormattingV3.NatText | Nicolas/Versione_3_Enrico/res/auto_queries.py:123 | the decimal text of a number is non-empty and holds only digits |
| FormattingV3.NatTextValue | Nicolas/Versione_3_Enrico/res/auto_queries.py:123 | that text reads back as the number |
| FormattingV3.LimitClauseSpec | Nicolas/Versione_3_Enrico/res/auto_queries.py:120-123 | no clause iff the limit is 0; otherwise `LIMIT` and the limit in decimal, with its sign |
| FormattingV3.DevicesMap | Enrico/Versione_3/res/auto_queries.py:27-40 | the loop computes the allocation text |
| FormattingV3.AllocationLines | Enrico/Versione_3/res/auto_queries.py:36-39 | the allocations are the header and one `obj is in room` line per record, newline-separated |
| FormattingV3.DevicesMapLines | Enrico/Versione_3/res/auto_queries.py:36-40 | the text is those lines and a final newline |
| FormattingV3.DevicesList | Enrico/Versione_3/res/auto_queries.py:10-24 | the loop computes the device-list text |
| FormattingV3.DevicesListGlued | Enrico/Versione_3/res/auto_queries.py:20-23 | as written, the first class is glued to the heading on the same line |
| FormattingV3.DevicesListCorrectedLines | Enrico/Versione_3/res/auto_queries.py:20-23 | corrected, the heading and each class are on lines of their own |
| SchemaBuilders.NodeSection | Nicolas/2_way_pipeline_new_graph.py:90-102 | the loop writes the node heading and one line per non-ignored label, in sorted order, with its sorted properties; with `Language.Italian` it is the node section of Enrico/pipeline_nicolas.py (lines 198-211) |
| SchemaBuilders.FilterSortedOf | Nicolas/2_way_pipeline_new_graph.py:96-98 | skipping the ignored labels of the sorted keys gives the sorted non-ignored keys |
| SchemaBuilders.ValidLabelsSpec | Nicolas/2_way_pipeline_new_graph.py:79-88 | the valid labels are sorted without repetition and are exactly the non-ignored labels some record carries; each label groups exactly the property names of the records carrying it |
| SchemaBuilders.SampleLabels | Nicolas/2_way_pipeline_new_graph.py:105-116 | the loop computes `Sample` |
| SchemaBuilders.SampleErrorSticks | Nicolas/2_way_pipeline_new_graph.py:105-126 | the first failing sample query ends the stage; later labels change nothing |
| SchemaBuilders.SampleErrorSpec | Nicolas/2_way_pipeline_new_graph.py:113-126 | the stage fails with a message iff some label's query fails with it and every earlier one succeeds |
| SchemaBuilders.SampleFailsSpec | Nicolas/2_way_pipeline_new_graph.py:105-126 | the stage fails iff some label's query fails |
| SchemaBuilders.SampledSpec | Nicolas/2_way_pipeline_new_graph.py:107-116 | on success, a label is kept iff it was sampled and returned names, and it keeps exactly those names; sorted labels stay sorted |
| SchemaBuilders.ExamplesSection | Nicolas/2_way_pipeline_new_graph.py:119-123 | the examples heading followed by one line per kept label; with `Language.Italian` it is the section of Enrico/pipeline_nicolas.py (lines 227-233) |
| SchemaBuilders.ExamplesShown | Nicolas/2_way_pipeline_new_graph.py:119-126 | at most one examples section, present iff some query failed or some label returned names |
| SchemaBuilders.FirstGoodLabel | Nicolas/2_way_pipeline_new_graph.py:143-152 | no good label iff every label is ignored; otherwise the first good one is the first non-ignored label |
| SchemaBuilders.PatternOfSpec | Nicolas/2_way_pipeline_new_graph.py:143-155 | no pattern iff one end has only ignored labels; otherwise the pattern joins the first non-ignored label of each end by the relationship type |
| SchemaBuilders.PatternsSpec | Nicolas/2_way_pipeline_new_graph.py:132-156 | a pattern is collected iff some relationship yields it |
| SchemaBuilders.CollectPatterns | Nicolas/2_way_pipeline_new_graph.py:135-156 | the loop computes the pattern set |
| SchemaBuilders.Bulleted | Nicolas/2_way_pipeline_new_graph.py:164-165 | one bullet per pattern |
| SchemaBuilders.RelationsSection | Nicolas/2_way_pipeline_new_graph.py:159-167 | the relations heading followed by the sorted patterns as bullets; with `Language.Italian` it is the section of Enrico/pipeline_nicolas.py (lines 266-275) |
| SchemaBuilders.RelationLinesSpec | Nicolas/2_way_pipeline_new_graph.py:164 | the listed patterns are sorted without repetition and are exactly the collected ones |
| SchemaBuilders.NodeStage | Nicolas/2_way_pipeline_new_graph.py:76-102 | a failed read adds its error line before the node section; the valid labels come from the rows read |
| SchemaBuilders.ExampleStage | Nicolas/2_way_pipeline_new_graph.py:105-126 | the examples section, the error line, or nothing |
| SchemaBuilders.RelationStage | Nicolas/2_way_pipeline_new_graph.py:129-170 | the relations section, or the error line when the read fails |
| SchemaBuilders.GenerateStructuredSchema | Nicolas/2_way_pipeline_new_graph.py:67-172 | the sections of the three stages joined by blank lines; with `Language.Italian` it is `genera_schema_strutturato` of Enrico/pipeline_nicolas.py (lines 178-280) |
| SchemaBuilders.NodesFailureKeepsPartial | Nicolas/2_way_pipeline_new_graph.py:85-86 | a failure while reading nodes only puts its error line in front: the rows read before it are still used |
| SchemaBuilders.RelationsIsolated | Nicolas/2_way_pipeline_new_graph.py:129-172 | the relationship stage is always the last section and its failure touches nothing before it |
| SchemaJson.LabelNodesSpec | Nicolas/2_way_pipeline_new_graph_json.py:79-84 | one entry per non-ignored label, without repetition, each with no properties and no examples |
| SchemaJson.MainLabel | Nicolas/2_way_pipeline_new_graph_json.py:93 | the main label is a non-ignored label of the record, and there is none iff all its labels are ignored |
| SchemaJson.ClaimsSnoc | Nicolas/2_way_pipeline_new_graph_json.py:88-96 | a label claims a property after one more record iff it did before, or that record claims it |
| SchemaJson.AddPropertySpec | Nicolas/2_way_pipeline_new_graph_json.py:89-96 | a record adds its property to its main label only when that label is non-empty and already an entry; no entry is added or removed, and examples are untouched |
| SchemaJson.WithPropertiesKeys | Nicolas/2_way_pipeline_new_graph_json.py:86-96 | the property stage adds and removes no entry and touches no examples |
| SchemaJson.WithPropertiesSpec | Nicolas/2_way_pipeline_new_graph_json.py:86-96 | a label ends with a property iff it had it or is an entry some record claims it for |
| SchemaJson.AddProperties | Nicolas/2_way_pipeline_new_graph_json.py:88-96 | the loop computes `WithProperties` |
| SchemaJson.WithExamplesNoneSticks | Nicolas/2_way_pipeline_new_graph_json.py:101-137 | once a sample query fails, the whole schema is lost |
| SchemaJson.AddExamplesSpec | Nicolas/2_way_pipeline_new_graph_json.py:103-112 | a label with a `name` property gets its names as examples when there are any; no other entry changes |
| SchemaJson.WithExamplesFilled | Nicolas/2_way_pipeline_new_graph_json.py:101-112 | when no sample query fails, every entry is as `Sampled` describes and the entries are the same |
| SchemaJson.WithExamplesFails | Nicolas/2_way_pipeline_new_graph_json.py:101-137 | the example stage fails iff the query of some label with a `name` property fails |
| SchemaJson.AddAllExamples | Nicolas/2_way_pipeline_new_graph_json.py:101-112 | the loop computes the example stage over the entries, in order |
| SchemaJson.GenerateJsonSchema | Nicolas/2_way_pipeline_new_graph_json.py:67-139 | the method computes `JsonSchemaOf` |
| SchemaJson.JsonSchemaSpec | Nicolas/2_way_pipeline_new_graph_json.py:67-139 | a schema comes back iff no read fails; then its nodes are exactly the non-ignored labels, each with exactly the properties claimed for it, and its relationships are sorted and exactly the collected patterns |

## Left out

- Neo4j I/O (drivers, sessions, `execute_read`, the Cypher text of every query) is not modelled, beyond the arguments `LegacyQueries.Execute` splices into it. Query results are inputs: a `Graph` snapshot for the reference auto-queries, an executor function for versions 4 to 7, and `Read` records (rows, then an optional failure) for the schema builders.
- Ollama I/O is not modelled: `check_installation`, the streaming of chunks in `launch_chat`, `write_cypher_query`, `write_answer`, `get_embedding`. Chat replies are inputs of the pipeline's `Env`, and only the messages a chat sends and the history it keeps are modelled.
- `get_detailed_schema`, `get_sample_data`, `generate_final_response` and `process_query` of the zero-shot pipeline are database or model calls. The detailed schema is an input of `Initialize`.
- `initialize` of version 3 and `complex_init` of version 1 read from the database. The augmentation they append is a function parameter.
- Cosine similarity and embeddings (floating point) are not computed. Similarity is a given function into `real`, and `embed` is a given function.
- `async`/`await` is not modelled. Every coroutine is run to completion, in program order.
- Printing, logging, spinners and the warnings printed for unknown names leave no trace in the model. Only returned values and field updates are modelled.
- Python `str`, `repr` and `json.dumps` are modelled without escaping, and `json.dumps(..., indent=2)` of the JSON schema builder is not rendered: `SchemaJson.GenerateJsonSchema` returns the schema structure.
- Case mapping and whitespace are ASCII only: `lower`, `upper`, `strip`, `split` and `isspace` on non-ASCII characters are not modelled.
- The regular expression of `_extract_cypher_query` is modelled by a hand-written matcher for its one pattern. The Python `re` engine is not modelled.
- Dynamic typing is modelled only for the argument and value shapes the catalogs use (`Param`, `Value`, `Item`). Other Python objects reaching these functions are not modelled.
- The embedding model's own files, other than the pairing in `get_list_embeddings`, are not part of this model.
- AutoQueries.ObjectProperties: with `randomizer` set, the names are reordered by a given function that is not required to be a permutation. Only the unshuffled order is characterised.
- AutoQueries.RelationshipsNames: the order in which `list()` enumerates the set of names is a parameter. Only the set of names is stated, not their order.
- FormattingV3.GetRelationships: the order in which a set of directions is iterated is a parameter (`PairListing`). The text is stated for any such order.
- Values.DictRepr, Values.JsonDump, Retriever.WriteListOfDict and LegacyData.ShowItem: property values are modelled as strings only, so every value is rendered quoted. Python leaves numbers, booleans and None unquoted (`{'state': True}`, `{"value": 21.5}`).
- LegacyQueries.Execute: where an argument lands in the Cypher text, only two database outcomes are modelled. A one-character LIMIT that is not a digit, and a non-empty schema dict used as a name, are rejected as query errors. Any other text is looked up as given, including an int or a tuple used as examples_per_label's property name, which Cypher would reject.
- RetrieverV4.SchemaTextSpec: states the corrected prepare_schema, which reads the resources catalog; as written the imported class has no catalog and the call raises AttributeError (see Findings, `RetrieverV4.PrepareAsWrittenFails`).
- RetrieverV4.WholeCatalogByDefault: about the corrected catalog; as written `AQ.global_aq_dict` raises AttributeError before the default tuple is computed.
- RetrieverV4.UnknownNameSkipped: about the corrected catalog; as written no requested name is reached, because the catalog read raises first.
- RetrieverV4.PartSkipped: keyed on the resources catalog, which the imported class does not have.
- RetrieverV4.GroupsWrittenRaw: reads the resources catalog, which the as-written import cannot reach.
- RetrieverV4.PrepareNames, RetrieverV4.PrepareEntry: the corrected loop; as written it is never entered.
- LegacyData.WriteDictOfGroup: unsorted groups are printed in an order given as a parameter (`Listing`), as Python set order is unspecified.

## Findings

| source | as written | input that shows it | evidently intended | confidence | as-written member | corrected member |
|---|---|---|---|---|---|---|
| Enrico/Versione_6/retriever.py:142 | the executor is read as `AQ.func_key`, an attribute the version-6 auto-query class does not define (its key is named `function`, resources/auto_queries.py:127) | any required name that is in the catalog and not `exec`, such as `NAMES`: `init_full_schema` raises AttributeError before storing anything | read the executor under the `function` key | not executed | RetrieverV6.InitAsWrittenFails | RetrieverV6.InitCorrectedSpec |
| Enrico/Versione_4/retriever.py:59 | AQ is the `AutoQueries` class of the `res` package (retriever.py:6), which defines only four query functions and no `global_aq_dict`, `query_key` or `results_key`; those live in the `resources` package | any call, e.g. `prepare_schema()` or `initialize(('LABELS',))`: AttributeError at `AQ.global_aq_dict`, before any name is read | import AQ from the `resources` package, whose catalog prepare_schema reads | not executed | RetrieverV4.PrepareAsWrittenFails | RetrieverV4.SchemaTextSpec |
| Enrico/Versione_3/res/auto_queries.py:20-23 | the heading `DEVICE CLASSES` is followed by no separator, and each class is followed by one | any non-empty class list, e.g. `['Lamp']`: the text is a newline, then `DEVICE CLASSESLamp`, then a newline | the heading on a line of its own, then one class per line | not executed | FormattingV3.DevicesListGlued | FormattingV3.DevicesListCorrectedLines |
