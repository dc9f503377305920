/**
 * The saved-templates list (components/features/TemplateManager.tsx): the
 * type filter, the case-insensitive name search, and the empty-list message.
 */
module TemplateManager {
  import opened Types
  import opened Seqs
  import opened JsString

  /** The type select: `'all' | 'transfer' | 'swap'`. */
  datatype TypeFilter = AllTypes | TransfersOnly | SwapsOnly

  predicate PassesType(t: Template, filter: TypeFilter) {
    match filter
    case AllTypes => true
    case TransfersOnly => t.kind == Transfer
    case SwapsOnly => t.kind == Swap
  }

  /** An empty query is falsy and lets every name through. */
  predicate PassesQuery(t: Template, query: string) {
    query == "" || Contains(ToLower(t.name), ToLower(query))
  }

  /**
   * `filteredTemplates`: the templates that pass both the type test and the
   * name test, in their original order.
   */
  function FilteredTemplates(templates: seq<Template>, filter: TypeFilter, query: string): (r: seq<Template>)
    ensures IsSubsequence(r, templates)
    ensures forall t :: t in r <==> t in templates && PassesType(t, filter) && PassesQuery(t, query)
    ensures forall t ::
              multiset(r)[t] == if PassesType(t, filter) && PassesQuery(t, query) then multiset(templates)[t] else 0
    ensures filter == TransfersOnly ==> forall i | 0 <= i < |r| :: r[i].kind == Transfer
    ensures filter == SwapsOnly ==> forall i | 0 <= i < |r| :: r[i].kind == Swap
    ensures query != "" ==> forall i | 0 <= i < |r| :: Contains(ToLower(r[i].name), ToLower(query))
  {
    var r := Filter(templates, (t: Template) => PassesType(t, filter) && PassesQuery(t, query));
    assert forall i | 0 <= i < |r| :: r[i] in r;
    r
  }

  /** With every type and no query, the whole list is shown. */
  lemma ShowAllWithoutFilters(templates: seq<Template>)
    ensures FilteredTemplates(templates, AllTypes, "") == templates
  {
    FilterKeepsAll(templates, (t: Template) => PassesType(t, AllTypes) && PassesQuery(t, ""));
  }

  /**
   * The text shown instead of the list: none while something matches; "No
   * templates saved yet" exactly when there are no templates; "No templates
   * match your search" when there are some but none match.
   */
  function EmptyMessage(templates: seq<Template>, filter: TypeFilter, query: string): (m: Option<string>)
    ensures m.None? <==> FilteredTemplates(templates, filter, query) != []
    ensures m == Some("No templates saved yet") <==> templates == []
    ensures templates != [] && FilteredTemplates(templates, filter, query) == [] ==>
      m == Some("No templates match your search")
  {
    if |FilteredTemplates(templates, filter, query)| != 0 then None
    else if |templates| == 0 then Some("No templates saved yet")
    else Some("No templates match your search")
  }
}
