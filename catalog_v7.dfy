/**
 * The auto-query catalog of version 7: each entry names its executor, how its results
 * are formatted, its heading and text template, and the filter mode the retriever of
 * that version dispatches on.
 */
module CatalogV7 {
  import opened Wrappers
  import opened Values
  import opened LegacyQueries
  import opened LegacySchema

  /** `AQ.global_aq_dict` */
  const Catalog: Dict<Entry> := [
    ("NAMES", Entry(GetNames, [], ListFormat, Some("Use these values for the 'name' property"), None, Some("dense-thresh"))),
    ("PROPS_PER_LABEL", Entry(PropsPerLabelQuery(true), [], GroupFormat, Some("Each label has these properties"),
                              Some("Label: `§` has ONLY these properties: "), Some("dense-sort"))),
    ("RELATIONSHIPS VISUAL", Entry(RelationshipsVisualQuery, [], ListFormat,
                                   Some("These are the relationship types per labels"), Some(""), Some("dense-sort"))),
    ("CLASS HIERARCHY", Entry(ClassHierarchyQuery(SubclassArrow), [], ListFormat,
                              Some("Use this SUBCLASSOF relationship schema"), Some(""), Some("dense-sort"))),
    ("OBJECT PROPERTIES", Entry(ObjectPropertiesQuery, [], ListOfDictFormat, Some("Here's some property values"),
                                Some(""), Some("launch"))),
    ("OBJECT CLASSES", Entry(ObjectClassesQuery, [], ListOfDictFormat, Some("Here's some classes"),
                             Some(""), Some("launch")))
  ]

  /**
   * NAMES is filtered by threshold, three entries by a sorted dense cut, and the two
   * object entries are launched during filtering; every entry has a filter mode.
   */
  lemma CatalogModes()
    ensures Keys(Catalog) == ["NAMES", "PROPS_PER_LABEL", "RELATIONSHIPS VISUAL", "CLASS HIERARCHY",
                              "OBJECT PROPERTIES", "OBJECT CLASSES"]
    ensures forall i :: 0 <= i < |Catalog| ==> (Catalog[i].1.filter == Some("dense-thresh") <==> i == 0)
    ensures forall i :: 0 <= i < |Catalog| ==> (Catalog[i].1.filter == Some("dense-sort") <==> 1 <= i <= 3)
    ensures forall i :: 0 <= i < |Catalog| ==> (Catalog[i].1.filter == Some("launch") <==> 4 <= i)
    ensures forall i :: 0 <= i < |Catalog| ==> Catalog[i].1.filter.Some? && Catalog[i].1.args == []
  {
  }
}
