/** The RDF values the client handles. The graph library itself is outside the
    model: a parsed graph is the sequence of its triples in the order the
    library iterates them. */
module Rdf {

  /** Which rdflib term class a term belongs to. */
  datatype TermKind = UriKind | LiteralKind | BNodeKind

  /** An rdflib URIRef, Literal or BNode with its lexical text. As in rdflib,
      two terms are equal only when both the class and the text agree; `str(t)`
      is `t.text`. */
  datatype Term = Term(kind: TermKind, text: string)

  datatype Triple = Triple(s: Term, p: Term, o: Term)

  /** A graph: its triples in iteration order. */
  type Graph = seq<Triple>
}
