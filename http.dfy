/**
 * What an endpoint definition of the data-fetching layer hands to the transport:
 * a verb, a URL and a body, plus the cache tags it provides or invalidates.
 */
module Http {
  datatype Verb = Get | Post | Patch

  /** The cache tags the two endpoint groups declare. */
  datatype Tag = UserTag | ProjectTag

  /** A mutation's request descriptor `{ url, method, body }`. */
  datatype Mutation<B> = Mutation(url: string, verb: Verb, body: B)
}
