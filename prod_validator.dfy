/** The production validator: before a transformation is started it must be
    in status 'New', and the input meta-query of a child transformation must
    be compatible, attribute by attribute, with the output meta-query of its
    parent. The remote reads (transformation status, meta-queries, catalog
    metadata fields) arrive as parameters holding the S_OK / S_ERROR reply. */
module ProdValidator {
  import opened Outcomes
  import opened PyStrings

  /** A literal in a meta-query. Python's ints and floats compare equal when
      they are numerically equal (1 == 1.0), so both are one numeric kind. */
  datatype Literal = Text(text: string) | Number(number: real)

  /** One `operator: operands` pair of an operator dict. */
  datatype Operation = Operation(op: string, operands: seq<Literal>)

  /** The value of one attribute in a meta-query: a bare literal, or an
      operator dict whose pairs are listed in the order `keys()` gives them. */
  datatype QueryValue = Bare(literal: Literal) | Operators(operations: seq<Operation>)

  type MetaQuery = map<string, QueryValue>

  /** The value of the catalog's getMetadataFields reply: empty, or the two
      tables mapping an attribute name to its declared type. */
  datatype MetadataFields =
    | NoFields
    | Fields(fileMetaFields: map<string, string>, directoryMetaFields: map<string, string>)

  /** The value checkMatchQuery wraps in S_OK: a verdict, or the empty
      metadata-field reply handed back as it came. */
  datatype MatchValue = Verdict(matches: bool) | NoFieldsDefined

  /** The verdict on one child attribute, in the order the checks are made. */
  datatype AttributeVerdict = Pass | Mismatch | NotInCatalog | UnsupportedType(mtype: string) | NotInParent

  const EligibleStatus := "New"
  const AcceptedOperators: set<string> := {"=", "in"}
  const SupportedTypes: set<string> := {"VARCHAR(128)", "int", "float"}
  const MatchFalseMessage := "checkMatchQuery result is False"

  /** Python truthiness of checkMatchQuery's value. */
  predicate Truthy(v: MatchValue)
  {
    v.Verdict? && v.matches
  }

  // ---------------------------------------------------------------- status

  /** checkTransStatus, given the reply to the status lookup. */
  function CheckTransStatus(status: Result<string>): (r: Result<()>)
    ensures r.Ok? <==> status == Ok(EligibleStatus)
    ensures status.Ok? && status.value != EligibleStatus ==> r.Error? && EndsWith(r.message, status.value)
    ensures !status.Ok? ==> r == status.PropagateFailure()
  {
    if !status.Ok? then status.PropagateFailure()
    else if status.value != EligibleStatus then
      Error("checkTransStatus failed : Invalid transformation status: " + status.value)
    else Ok(())
  }

  // ---------------------------------------------------------- query format

  /** An operator dict with at least one pair. */
  predicate HasOperands(v: QueryValue)
  {
    v.Operators? && |v.operations| > 0
  }

  /** The uniform shape every value has after checkformatQuery. */
  predicate Normalized(v: QueryValue)
  {
    HasOperands(v) && v.operations[0].op in AcceptedOperators
  }

  predicate AllNormalized(q: MetaQuery)
  {
    forall k :: k in q ==> Normalized(q[k])
  }

  /** What checkformatQuery does with one value: a bare value `v` becomes
      {"in": [v]}; an operator dict is kept when its first operator is '=' or
      'in', rejected when it is another one, and crashes `keys()[0]` when it
      has no operator at all. */
  function FormatValue(v: QueryValue): (r: Result<QueryValue>)
    ensures r.Ok? <==> v.Bare? || Normalized(v)
    ensures v.Bare? ==> r == Ok(Operators([Operation("in", [v.literal])]))
    ensures r.Ok? ==> Normalized(r.value)
    ensures v.Operators? && r.Ok? ==> r.value == v
    ensures r.Error? ==> HasOperands(v) && r.message == "Operation " + v.operations[0].op + " is not supported"
    ensures r.Raised? <==> v == Operators([])
  {
    match v
    case Bare(literal) => Ok(Operators([Operation("in", [literal])]))
    case Operators(operations) =>
      if |operations| == 0 then Raised("IndexError")
      else if operations[0].op !in AcceptedOperators then
        Error("Operation " + operations[0].op + " is not supported")
      else Ok(v)
  }

  /** Every value of the query passes checkformatQuery. */
  predicate FormatOk(q: MetaQuery)
  {
    forall k :: k in q ==> FormatValue(q[k]).Ok?
  }

  /** The query checkformatQuery leaves behind when it succeeds. */
  function NormalizeQuery(q: MetaQuery): (n: MetaQuery)
    requires FormatOk(q)
    ensures n.Keys == q.Keys
    ensures AllNormalized(n)
  {
    map k | k in q :: FormatValue(q[k]).value
  }

  /** A bare value and the same value written as {"in": [v]} normalize alike. */
  lemma BareIsIn(v: Literal)
    ensures FormatValue(Bare(v)) == FormatValue(Operators([Operation("in", [v])]))
  {
  }

  /** Formatting an already formatted query changes nothing. */
  lemma {:induction false} NormalizeQueryIdempotent(q: MetaQuery)
    requires FormatOk(q)
    ensures FormatOk(NormalizeQuery(q))
    ensures NormalizeQuery(NormalizeQuery(q)) == NormalizeQuery(q)
  {
    var n := NormalizeQuery(q);
    forall k | k in n
      ensures FormatValue(n[k]) == Ok(n[k])
    {
      assert Normalized(n[k]);
    }
  }

  /** What an interrupted checkformatQuery leaves of a query: the same keys,
      each value either untouched or already formatted. */
  predicate PartlyFormatted(before: MetaQuery, after: MetaQuery)
  {
    && after.Keys == before.Keys
    && forall k :: k in after ==> after[k] == before[k] || Ok(after[k]) == FormatValue(before[k])
  }

  /** A Python dict (a query) that checkformatQuery rewrites in place. */
  class QueryDict {
    var entries: MetaQuery

    constructor (entries: MetaQuery)
      ensures this.entries == entries
    {
      this.entries := entries;
    }
  }

  /** checkformatQuery. Python 2 visits the keys in no specified order, so the
      next key is chosen freely. Bare values are rewritten in the caller's
      dict as they are met; on a failure the values visited before it stay
      rewritten. */
  method CheckFormatQuery(query: QueryDict) returns (r: Result<MetaQuery>)
    modifies query
    ensures PartlyFormatted(old(query.entries), query.entries)
    ensures r.Ok? <==> FormatOk(old(query.entries))
    ensures r.Ok? ==> query.entries == NormalizeQuery(old(query.entries)) && r.value == query.entries
    ensures !r.Ok? ==> exists k :: (k in old(query.entries) && !FormatValue(old(query.entries)[k]).Ok? &&
      r == FormatValue(old(query.entries)[k]).PropagateFailure())
  {
    ghost var original := query.entries;
    var pending := query.entries.Keys;
    while pending != {}
      invariant pending <= original.Keys
      invariant query.entries.Keys == original.Keys
      invariant forall k :: k in original && k !in pending ==>
        FormatValue(original[k]).Ok? && query.entries[k] == FormatValue(original[k]).value
      invariant forall k :: k in pending ==> query.entries[k] == original[k]
      decreases pending
    {
      var meta :| meta in pending;
      var value := query.entries[meta];
      if value.Operators? {
        if |value.operations| == 0 {
          return Raised("IndexError");
        }
        var operation := value.operations[0].op;
        if operation !in AcceptedOperators {
          return Error("Operation " + operation + " is not supported");
        }
      } else {
        query.entries := query.entries[meta := Operators([Operation("in", [value.literal])])];
      }
      pending := pending - {meta};
    }
    r := Ok(query.entries);
  }

  // ------------------------------------------------------------ comparison

  /** `value.values()[0]`: the operands of the first pair. */
  function FirstOperands(v: QueryValue): seq<Literal>
    requires HasOperands(v)
  {
    v.operations[0].operands
  }

  /** Every operand of `a` occurs among the operands of `b`. */
  predicate CoveredBy(a: seq<Literal>, b: seq<Literal>)
  {
    forall i :: 0 <= i < |a| ==> a[i] in b
  }

  /** Set inclusion of the operands and coverage of one list by the other
      are the same thing. */
  lemma CoveredByElements(a: seq<Literal>, b: seq<Literal>)
    ensures CoveredBy(a, b) <==> Elements(a) <= Elements(b)
  {
    if CoveredBy(a, b) {
      forall x | x in Elements(a) ensures x in Elements(b) {
        var i :| 0 <= i < |a| && a[i] == x;
      }
    }
    if Elements(a) <= Elements(b) {
      forall i | 0 <= i < |a| ensures a[i] in b {
        assert a[i] in Elements(a);
      }
    }
  }

  /** compareValues: the two operand sets are nested, in either direction,
      that is, every first operand of one value occurs among the first
      operands of the other. The operator itself is not looked at. */
  function CompareValues(value: QueryValue, parentValue: QueryValue): (nested: bool)
    requires HasOperands(value) && HasOperands(parentValue)
    ensures nested <==>
      CoveredBy(FirstOperands(value), FirstOperands(parentValue)) ||
      CoveredBy(FirstOperands(parentValue), FirstOperands(value))
  {
    CoveredByElements(FirstOperands(value), FirstOperands(parentValue));
    CoveredByElements(FirstOperands(parentValue), FirstOperands(value));
    var mine := Elements(FirstOperands(value));
    var theirs := Elements(FirstOperands(parentValue));
    mine <= theirs || theirs <= mine
  }

  lemma CompareValuesSymmetric(value: QueryValue, parentValue: QueryValue)
    requires HasOperands(value) && HasOperands(parentValue)
    ensures CompareValues(value, parentValue) == CompareValues(parentValue, value)
  {
  }

  lemma CompareValuesReflexive(value: QueryValue)
    requires HasOperands(value)
    ensures CompareValues(value, value)
  {
  }

  /** The reverse direction is accepted too: a child asking for more values
      than the parent produces still passes. */
  lemma CompareValuesAcceptsBroaderChild()
    ensures CompareValues(Operators([Operation("in", [Number(1.0), Number(2.0)])]),
                          Operators([Operation("in", [Number(1.0)])]))
    ensures !CoveredBy([Number(1.0), Number(2.0)], [Number(1.0)])
  {
    var broader := [Number(1.0), Number(2.0)];
    assert broader[1] !in [Number(1.0)];
  }

  // ---------------------------------------------------------- match query

  /** MetaTypeDict: the file table updated with the directory table. */
  function MergedTypes(fields: MetadataFields): (types: map<string, string>)
    requires fields.Fields?
    ensures forall m :: m in types <==> m in fields.fileMetaFields || m in fields.directoryMetaFields
    ensures forall m :: m in fields.directoryMetaFields ==> types[m] == fields.directoryMetaFields[m]
    ensures forall m :: m in fields.fileMetaFields && m !in fields.directoryMetaFields ==>
      types[m] == fields.fileMetaFields[m]
  {
    fields.fileMetaFields + fields.directoryMetaFields
  }

  /** The verdict on one attribute of the child query. The three rejections
      are tried in this order; the first that applies is the one reported. */
  function CheckAttribute(meta: string, value: QueryValue, types: map<string, string>, parent: MetaQuery): (v: AttributeVerdict)
    requires Normalized(value) && AllNormalized(parent)
    ensures v == NotInCatalog <==> meta !in types
    ensures v.UnsupportedType? <==> meta in types && types[meta] !in SupportedTypes
    ensures v.UnsupportedType? ==> v.mtype == types[meta]
    ensures v == NotInParent <==> meta in types && types[meta] in SupportedTypes && meta !in parent
    ensures v == Pass <==> meta in types && types[meta] in SupportedTypes && meta in parent && CompareValues(value, parent[meta])
    ensures v == Mismatch <==> meta in types && types[meta] in SupportedTypes && meta in parent && !CompareValues(value, parent[meta])
  {
    if meta !in types then NotInCatalog
    else if types[meta] !in SupportedTypes then UnsupportedType(types[meta])
    else if meta !in parent then NotInParent
    else if CompareValues(value, parent[meta]) then Pass
    else Mismatch
  }

  /** A verdict that checkMatchQuery turns into S_ERROR. */
  predicate Rejected(v: AttributeVerdict)
  {
    v.NotInCatalog? || v.UnsupportedType? || v.NotInParent?
  }

  /** The S_ERROR message of a rejection. */
  function RejectionMessage(meta: string, v: AttributeVerdict): string
    requires Rejected(v)
  {
    match v
    case NotInCatalog => "Metadata " + meta + " is not defined in the Catalog"
    case UnsupportedType(mtype) => "Metatype " + mtype + " is not supported"
    case NotInParent => "Metadata " + meta + " is not in parent transformation query"
  }

  /** Every attribute of the (normalized) child query passes. */
  predicate QueryMatches(child: MetaQuery, parent: MetaQuery, types: map<string, string>)
    requires AllNormalized(child) && AllNormalized(parent)
  {
    forall k :: k in child ==> CheckAttribute(k, child[k], types, parent) == Pass
  }

  /** No attribute of the child query is rejected (it may still mismatch). */
  predicate NoRejection(child: MetaQuery, parent: MetaQuery, types: map<string, string>)
    requires AllNormalized(child) && AllNormalized(parent)
  {
    forall k :: k in child ==> !Rejected(CheckAttribute(k, child[k], types, parent))
  }

  /** checkMatchQuery. Both queries are formatted in place (the child first);
      then the child's attributes are visited in no specified order, and the
      first one that fails decides the answer. */
  method CheckMatchQuery(mq: QueryDict, mqParent: QueryDict, fields: Result<MetadataFields>)
    returns (r: Result<MatchValue>)
    modifies mq, mqParent
    ensures !fields.Ok? ==> r == fields.PropagateFailure() && unchanged(mq, mqParent)
    ensures fields == Ok(NoFields) ==> r == Ok(NoFieldsDefined) && unchanged(mq, mqParent)
    ensures fields.Ok? && fields.value.Fields? && !FormatOk(old(mq.entries)) ==>
      && !r.Ok?
      && (exists k :: (k in old(mq.entries) && !FormatValue(old(mq.entries)[k]).Ok? &&
            r == FormatValue(old(mq.entries)[k]).PropagateFailure()))
      && PartlyFormatted(old(mq.entries), mq.entries)
      && (mq != mqParent ==> unchanged(mqParent))
    ensures fields.Ok? && fields.value.Fields? && FormatOk(old(mq.entries)) && !FormatOk(old(mqParent.entries)) ==>
      && !r.Ok?
      && mq.entries == NormalizeQuery(old(mq.entries))
      && PartlyFormatted(old(mqParent.entries), mqParent.entries)
      && exists k :: (k in old(mqParent.entries) && !FormatValue(old(mqParent.entries)[k]).Ok? &&
           r == FormatValue(old(mqParent.entries)[k]).PropagateFailure())
    ensures fields.Ok? && fields.value.Fields? && FormatOk(old(mq.entries)) && FormatOk(old(mqParent.entries)) ==>
      var child, parent := NormalizeQuery(old(mq.entries)), NormalizeQuery(old(mqParent.entries));
      && mq.entries == child && mqParent.entries == parent
      && MatchOutcome(child, parent, MergedTypes(fields.value), r)
  {
    if !fields.Ok? {
      return fields.PropagateFailure();
    }
    if fields.value.NoFields? {
      return Ok(NoFieldsDefined);
    }
    var types := MergedTypes(fields.value);

    var formatted := CheckFormatQuery(mq);
    if !formatted.Ok? {
      return formatted.PropagateFailure();
    }
    var child := formatted.value;
    if mq == mqParent {
      NormalizeQueryIdempotent(old(mq.entries));
    }
    formatted := CheckFormatQuery(mqParent);
    if !formatted.Ok? {
      return formatted.PropagateFailure();
    }
    var parent := formatted.value;

    r := MatchAttributes(child, parent, types);
  }

  /** What the loop of checkMatchQuery over the child's attributes returns:
      True exactly when every attribute passes, False only for an attribute
      whose values do not fit the parent's, and an error naming an attribute
      that is rejected; it never raises. */
  ghost predicate MatchOutcome(child: MetaQuery, parent: MetaQuery, types: map<string, string>, r: Result<MatchValue>)
    requires AllNormalized(child) && AllNormalized(parent)
  {
    && (r.Ok? ==> r.value.Verdict?)
    && (r == Ok(Verdict(true)) <==> QueryMatches(child, parent, types))
    && (r == Ok(Verdict(false)) ==> exists k :: k in child && CheckAttribute(k, child[k], types, parent) == Mismatch)
    && (r.Error? ==> exists k :: (k in child && Rejected(CheckAttribute(k, child[k], types, parent)) &&
          r.message == RejectionMessage(k, CheckAttribute(k, child[k], types, parent))))
    && !r.Raised?
  }

  /** Read as a verdict: a successful outcome is True exactly when the
      queries match, an error means some attribute was rejected, and with
      no rejection a mismatch is a plain False. */
  lemma MatchOutcomeVerdict(child: MetaQuery, parent: MetaQuery, types: map<string, string>, r: Result<MatchValue>)
    requires AllNormalized(child) && AllNormalized(parent)
    requires MatchOutcome(child, parent, types, r)
    ensures r.Ok? ==> (Truthy(r.value) <==> QueryMatches(child, parent, types))
    ensures r.Error? ==> !NoRejection(child, parent, types)
    ensures NoRejection(child, parent, types) && !QueryMatches(child, parent, types) ==> r == Ok(Verdict(false))
    ensures r.Error? ==> r.message != MatchFalseMessage
  {
    if r.Error? {
      var k :| k in child && Rejected(CheckAttribute(k, child[k], types, parent)) &&
               r.message == RejectionMessage(k, CheckAttribute(k, child[k], types, parent));
      RejectionNotFalse(k, CheckAttribute(k, child[k], types, parent));
    }
  }

  /** No rejection message reads as the plain "no" of checkTransDependency. */
  lemma RejectionNotFalse(meta: string, v: AttributeVerdict)
    requires Rejected(v)
    ensures RejectionMessage(meta, v) != MatchFalseMessage
  {
    assert RejectionMessage(meta, v)[0] == 'M' != MatchFalseMessage[0];
  }

  /** The loop of checkMatchQuery: each attribute of the child, in some
      order, must be known to the catalog, of a supported type, present in
      the parent and compatible with the parent's values. */
  method MatchAttributes(child: MetaQuery, parent: MetaQuery, types: map<string, string>) returns (r: Result<MatchValue>)
    requires AllNormalized(child) && AllNormalized(parent)
    ensures MatchOutcome(child, parent, types, r)
  {
    var pending := child.Keys;
    while pending != {}
      invariant pending <= child.Keys
      invariant forall k :: k in child && k !in pending ==> CheckAttribute(k, child[k], types, parent) == Pass
      decreases pending
    {
      var meta :| meta in pending;
      var value := child[meta];
      if meta !in types {
        return Error("Metadata " + meta + " is not defined in the Catalog");
      }
      var mtype := types[meta];
      if mtype !in SupportedTypes {
        return Error("Metatype " + mtype + " is not supported");
      }
      if meta !in parent {
        return Error("Metadata " + meta + " is not in parent transformation query");
      }
      if !CompareValues(value, parent[meta]) {
        return Ok(Verdict(false));
      }
      pending := pending - {meta};
    }
    return Ok(Verdict(true));
  }

  // ------------------------------------------------------------ dependency

  /** The queries and catalog replies for which checkTransDependency succeeds. */
  predicate DependencyHolds(inputQuery: Result<MetaQuery>, parentOutputQuery: Result<MetaQuery>,
                            fields: Result<MetadataFields>)
  {
    && inputQuery.Ok? && |inputQuery.value| > 0
    && parentOutputQuery.Ok? && |parentOutputQuery.value| > 0
    && fields.Ok? && fields.value.Fields?
    && FormatOk(inputQuery.value) && FormatOk(parentOutputQuery.value)
    && QueryMatches(NormalizeQuery(inputQuery.value), NormalizeQuery(parentOutputQuery.value), MergedTypes(fields.value))
  }

  /** checkTransDependency, given the two meta-query replies and the catalog's
      metadata-field reply. An empty query (or none) is refused before
      anything else is looked at; a logical "no" becomes an error. */
  method CheckTransDependency(transID: string, parentTransID: string,
                              inputQuery: Result<MetaQuery>, parentOutputQuery: Result<MetaQuery>,
                              fields: Result<MetadataFields>)
    returns (r: Result<()>)
    ensures r.Ok? <==> DependencyHolds(inputQuery, parentOutputQuery, fields)
    ensures !inputQuery.Ok? ==> r == inputQuery.PropagateFailure()
    ensures inputQuery.Ok? && |inputQuery.value| == 0 ==> r == Error("No InputMetaQuery defined for transformation " + transID)
    ensures inputQuery.Ok? && |inputQuery.value| > 0 && !parentOutputQuery.Ok? ==>
      r == parentOutputQuery.PropagateFailure()
    ensures inputQuery.Ok? && |inputQuery.value| > 0 && parentOutputQuery.Ok? && |parentOutputQuery.value| == 0 ==>
      r == Error("No OutputMetaQuery defined for parent transformation " + parentTransID)
    ensures inputQuery.Ok? && |inputQuery.value| > 0 && parentOutputQuery.Ok? && |parentOutputQuery.value| > 0 ==>
      && (!fields.Ok? ==> r == fields.PropagateFailure())
      && (fields == Ok(NoFields) ==> r == Error(MatchFalseMessage))
    ensures inputQuery.Ok? && |inputQuery.value| > 0 && parentOutputQuery.Ok? && |parentOutputQuery.value| > 0 &&
            fields.Ok? && fields.value.Fields? && FormatOk(inputQuery.value) && FormatOk(parentOutputQuery.value) ==>
      var child, parent := NormalizeQuery(inputQuery.value), NormalizeQuery(parentOutputQuery.value);
      var types := MergedTypes(fields.value);
      && !r.Raised?
      && (NoRejection(child, parent, types) && !QueryMatches(child, parent, types) ==> r == Error(MatchFalseMessage))
      && (r == Error(MatchFalseMessage) ==>
            exists k :: k in child && CheckAttribute(k, child[k], types, parent) == Mismatch)
      && (r.Error? && r.message != MatchFalseMessage ==>
            exists k :: (k in child && Rejected(CheckAttribute(k, child[k], types, parent)) &&
                         r.message == RejectionMessage(k, CheckAttribute(k, child[k], types, parent))))
    ensures inputQuery.Ok? && |inputQuery.value| > 0 && parentOutputQuery.Ok? && |parentOutputQuery.value| > 0 &&
            fields.Ok? && fields.value.Fields? && !FormatOk(inputQuery.value) ==>
      exists k :: (k in inputQuery.value && !FormatValue(inputQuery.value[k]).Ok? &&
                   r == FormatValue(inputQuery.value[k]).PropagateFailure())
    ensures inputQuery.Ok? && |inputQuery.value| > 0 && parentOutputQuery.Ok? && |parentOutputQuery.value| > 0 &&
            fields.Ok? && fields.value.Fields? && FormatOk(inputQuery.value) && !FormatOk(parentOutputQuery.value) ==>
      exists k :: (k in parentOutputQuery.value && !FormatValue(parentOutputQuery.value[k]).Ok? &&
                   r == FormatValue(parentOutputQuery.value[k]).PropagateFailure())
  {
    if !inputQuery.Ok? {
      return inputQuery.PropagateFailure();
    }
    if |inputQuery.value| == 0 {
      return Error("No InputMetaQuery defined for transformation " + transID);
    }
    if !parentOutputQuery.Ok? {
      return parentOutputQuery.PropagateFailure();
    }
    if |parentOutputQuery.value| == 0 {
      return Error("No OutputMetaQuery defined for parent transformation " + parentTransID);
    }
    var mq := new QueryDict(inputQuery.value);
    var mqParent := new QueryDict(parentOutputQuery.value);
    var matched := CheckMatchQuery(mq, mqParent, fields);
    if fields.Ok? && fields.value.Fields? && FormatOk(inputQuery.value) && FormatOk(parentOutputQuery.value) {
      MatchOutcomeVerdict(NormalizeQuery(inputQuery.value), NormalizeQuery(parentOutputQuery.value),
                          MergedTypes(fields.value), matched);
    }
    if !matched.Ok? {
      return matched.PropagateFailure();
    }
    if !Truthy(matched.value) {
      return Error(MatchFalseMessage);
    }
    return Ok(());
  }

  // -------------------------------------------------------------- examples

  /** A child asking for runs 100 and 101 of a parent producing 100 to 102. */
  lemma ChildWithinParentPasses()
    ensures DependencyHolds(
      Ok(map["Run" := Operators([Operation("in", [Number(100.0), Number(101.0)])])]),
      Ok(map["Run" := Operators([Operation("in", [Number(100.0), Number(101.0), Number(102.0)])])]),
      Ok(Fields(map["Run" := "int"], map[])))
  {
    var child := map["Run" := Operators([Operation("in", [Number(100.0), Number(101.0)])])];
    var parent := map["Run" := Operators([Operation("in", [Number(100.0), Number(101.0), Number(102.0)])])];
    assert FormatValue(child["Run"]).Ok?;
    assert FormatValue(parent["Run"]).Ok?;
    assert NormalizeQuery(child) == child;
    assert NormalizeQuery(parent) == parent;
  }

  /** An attribute of the child that the parent's query lacks is an error,
      not a "no". */
  lemma AttributeMissingFromParentIsRejected()
    ensures CheckAttribute("Site", Operators([Operation("in", [Text("X")])]), map["Site" := "VARCHAR(128)"],
                           map["Run" := Operators([Operation("in", [Number(1.0)])])]) == NotInParent
  {
  }

  /** A dict whose first operator is other than '=' or 'in' is refused,
      naming that operator, whatever follows it. */
  lemma UnsupportedOperatorRefused(op: string, operands: seq<Literal>, rest: seq<Operation>)
    requires op !in AcceptedOperators
    ensures FormatValue(Operators([Operation(op, operands)] + rest)) == Error("Operation " + op + " is not supported")
  {
    assert ([Operation(op, operands)] + rest)[0].op == op;
  }
}
