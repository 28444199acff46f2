/** The reshaping step of the entity search (route /search): each candidate
    that survived the category filter becomes `{qid, label, descr}` in the
    interface language, in the order the filter returned them. */
module Search {
  import opened Language

  /** One search candidate with the labels and descriptions fetched in
      Portuguese, Brazilian Portuguese and English ("" when absent). */
  datatype Candidate = Candidate(
    id: string,
    labelpt: string, labelptbr: string, labelen: string,
    descrpt: string, descrptbr: string, descren: string)

  /** `{qid, label, descr}`; `label` is a Dafny keyword, hence `labelText`. */
  datatype SearchResult = SearchResult(qid: string, labelText: string, descr: string)

  /** `preferred` unless it is empty, then `fallback`. */
  function OrElse(preferred: string, fallback: string): string {
    if preferred == "" then fallback else preferred
  }

  /** The loop of `search_entity`: `locale` is the session locale before
      normalisation, `filtered` the already filtered candidates. */
  method SearchEntity(locale: string, filtered: seq<Candidate>) returns (items: seq<SearchResult>)
    ensures |items| == |filtered|
    ensures forall i :: 0 <= i < |items| ==> items[i].qid == filtered[i].id
    ensures locale == "en" ==> forall i :: 0 <= i < |items| ==>
      items[i].labelText == filtered[i].labelen && items[i].descr == filtered[i].descren
    ensures locale != "en" ==> forall i :: 0 <= i < |items| ==>
      items[i].labelText == OrElse(filtered[i].labelptbr, filtered[i].labelpt)
      && items[i].descr == OrElse(filtered[i].descrptbr, filtered[i].descrpt)
  {
    var lang := PtToPtBr(locale);
    items := [];
    for k := 0 to |filtered|
      invariant |items| == k
      invariant forall i :: 0 <= i < k ==> items[i].qid == filtered[i].id
      invariant lang == "en" ==> forall i :: 0 <= i < k ==>
        items[i].labelText == filtered[i].labelen && items[i].descr == filtered[i].descren
      invariant lang != "en" ==> forall i :: 0 <= i < k ==>
        items[i].labelText == OrElse(filtered[i].labelptbr, filtered[i].labelpt)
        && items[i].descr == OrElse(filtered[i].descrptbr, filtered[i].descrpt)
    {
      var item := filtered[k];
      item := item.(labelptbr := if item.labelptbr == "" then item.labelpt else item.labelptbr);
      item := item.(descrptbr := if item.descrptbr == "" then item.descrpt else item.descrptbr);
      items := items + [SearchResult(item.id,
                                     if lang != "en" then item.labelptbr else item.labelen,
                                     if lang != "en" then item.descrptbr else item.descren)];
    }
  }

  /** The fallback to Portuguese happens only for an empty pt-br text, and
      an empty pt-br text with an empty pt text stays empty. */
  lemma OrElseFallback(preferred: string, fallback: string)
    ensures preferred != "" ==> OrElse(preferred, fallback) == preferred
    ensures preferred == "" ==> OrElse(preferred, fallback) == fallback
    ensures OrElse(preferred, fallback) == "" <==> preferred == "" && fallback == ""
  {
  }
}
