/** The two gin query accessors the route handlers call. A query string is
    a map from each name to its first value. */
module GinQuery {

  type Query = map<string, string>

  /** `c.DefaultQuery`: the default is used only when the name is absent;
      a name present with an empty value gives "". */
  function DefaultQuery(query: Query, key: string, defaultValue: string): (r: string)
    ensures key in query ==> r == query[key]
    ensures key !in query ==> r == defaultValue
  {
    if key in query then query[key] else defaultValue
  }

  /** `c.Query`: "" for an absent name, so absent and empty read alike. */
  function QueryValue(query: Query, key: string): (r: string)
    ensures key in query ==> r == query[key]
    ensures key !in query ==> r == ""
  {
    DefaultQuery(query, key, "")
  }
}
