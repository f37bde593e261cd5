/** What the provider's API client gives both synchronizers: its errors and its label selectors. */
module ProviderApi {
  import opened Wrappers

  /** A provider error; NotFound is the variant IgnoreNotFound swallows. */
  datatype ProviderError = NotFound(message: string) | Failure(message: string)

  /** utils.IgnoreNotFound: a NotFound error becomes no error, any other is kept. */
  function IgnoreNotFound(e: ProviderError): (r: Option<ProviderError>)
    ensures r.None? <==> e.NotFound?
    ensures r.Some? ==> r.value == e
  {
    if e.NotFound? then None else Some(e)
  }

  /** The provider's equality selector "key=value" over a record's labels. */
  predicate LabelsMatch(selector: string, labels: map<string, string>) {
    exists k :: k in labels && k + "=" + labels[k] == selector
  }

  /** A record labelled key: value is picked out by the selector "key=value". */
  lemma LabelMatches(key: string, value: string, labels: map<string, string>)
    requires key in labels && labels[key] == value
    ensures LabelsMatch(key + "=" + value, labels)
  {
  }
}
