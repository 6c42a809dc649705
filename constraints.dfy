/** The metadata constraint tree a search query carries, what it means for one index
    record, and the query object the filter compilers append to. */
module Constraints {
  import opened Common

  /** MetadataConstraint with match 'any' (Meta) or 'none' (MetaNone), and the
      Exists/Not/And/Or constraints of the search add-on. */
  datatype Constraint =
    | Meta(field: string, values: seq<Value>)
    | MetaNone(field: string, values: seq<Value>)
    | Exists(field: string)
    | Not(inner: Constraint)
    | And(children: seq<Constraint>)
    | Or(children: seq<Constraint>)

  /** Whether a record with metadata `md` satisfies `c`. */
  predicate Holds(c: Constraint, md: Metadata)
    decreases c
  {
    match c
    case Meta(f, vs) => f in md && md[f] in vs
    case MetaNone(f, vs) => !(f in md && md[f] in vs)
    case Exists(f) => f in md
    case Not(x) => !Holds(x, md)
    case And(cs) => forall x :: x in cs ==> Holds(x, md)
    case Or(cs) => exists x :: x in cs && Holds(x, md)
  }

  /** A query's constraint list is a conjunction. */
  predicate AllHold(cs: seq<Constraint>, md: Metadata)
  {
    forall x :: x in cs ==> Holds(x, md)
  }

  /** Why a filter value was rejected; the phrase the source shows is left out. */
  datatype ErrorReason =
    | UnknownReportStates(values: seq<string>)
    | OnlySingleReportTypePermitted
    | HelperError(code: string)

  /** Query::error(key, phrase). */
  datatype QueryError = QueryError(key: string, reason: ErrorReason)

  /** The search query: its metadata constraints and its validation errors. */
  class Query {
    var constraints: seq<Constraint>
    var errors: seq<QueryError>

    constructor ()
      ensures constraints == [] && errors == []
    {
      constraints := [];
      errors := [];
    }

    /** withMetadata(constraint) */
    method WithMetadata(c: Constraint)
      modifies this
      ensures constraints == old(constraints) + [c] && errors == old(errors)
    {
      constraints := constraints + [c];
    }

    /** withMetadata(array of constraints): appends each of them. */
    method WithMetadataList(cs: seq<Constraint>)
      modifies this
      ensures constraints == old(constraints) + cs && errors == old(errors)
    {
      constraints := constraints + cs;
    }

    /** error(key, message): appends a validation error; constraints are untouched. */
    method Error(e: QueryError)
      modifies this
      ensures errors == old(errors) + [e] && constraints == old(constraints)
    {
      errors := errors + [e];
    }

    /** QueryAccessor::setMetadataConstraints */
    method SetMetadataConstraints(cs: seq<Constraint>)
      modifies this
      ensures constraints == cs && errors == old(errors)
    {
      constraints := cs;
    }
  }

  /** What one of the search repository's constraint helpers does to the query and the URL set. */
  datatype HelperEffect = HelperEffect(added: seq<Constraint>, errors: seq<QueryError>, url: UrlConstraints)

  /** Appends a helper's constraints and errors to the query and returns its URL set. */
  method ApplyEffect(query: Query, e: HelperEffect) returns (url: UrlConstraints)
    modifies query
    ensures query.constraints == old(query.constraints) + e.added
    ensures query.errors == old(query.errors) + e.errors
    ensures url == e.url
  {
    query.WithMetadataList(e.added);
    query.errors := query.errors + e.errors;
    url := e.url;
  }
}
