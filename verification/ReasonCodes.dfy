/** The codes of the preflight's reasons and the order the report lists them in. */
module ReasonCodes {
  import opened Prelude
  import opened Json
  import opened Orders
  import opened Preflight

  function CodeOf(reason: Reason): string {
    match reason
    case AmbiguousCustomerMapping => "AMBIGUOUS_CUSTOMER_MAPPING"
    case CrossCustomerRelation => "CROSS_CUSTOMER_RELATION"
    case CustomerRootNotFound => "CUSTOMER_ROOT_NOT_FOUND"
    case CustomerScopedUniquenessConflict => "CUSTOMER_SCOPED_UNIQUENESS_CONFLICT"
    case InvalidCustomerId => "INVALID_CUSTOMER_ID"
    case InvalidKnowledgePolicy => "INVALID_KNOWLEDGE_POLICY"
    case InvalidKnowledgeVisibility => "INVALID_KNOWLEDGE_VISIBILITY"
    case InvalidMappingApproval => "INVALID_MAPPING_APPROVAL"
    case InvalidPreflightInput => "INVALID_PREFLIGHT_INPUT"
    case MappingResourceMismatch => "MAPPING_RESOURCE_MISMATCH"
    case UnknownRecordType => "UNKNOWN_RECORD_TYPE"
    case UnmappedCustomer => "UNMAPPED_CUSTOMER"
  }

  /** The texts agree up to here, where the first has the smaller character. */
  predicate DiffersAt(a: string, b: string, n: nat) {
    n < |a| && n < |b| && (forall k :: 0 <= k < n ==> a[k] == b[k]) && a[n] < b[n]
  }

  lemma {:induction false} DifferenceOrders(a: string, b: string, n: nat)
    requires DiffersAt(a, b, n)
    ensures LexLe(a, b) && !LexLe(b, a)
  {
    if n > 0 {
      assert forall k :: 0 <= k < n - 1 ==> a[1..][k] == a[k + 1] && b[1..][k] == b[k + 1];
      DifferenceOrders(a[1..], b[1..], n - 1);
    }
  }

  function CodeAt(k: nat): string
    requires k < 12
  {
    CodeOf(SafeReasons()[k])
  }

  /** Where the code at this place and the next differ first. */
  lemma CodesDiffer(k: nat) returns (n: nat)
    requires k < 11
    ensures DiffersAt(CodeAt(k), CodeAt(k + 1), n)
  {
    n := [0, 1, 9, 0, 8, 18, 8, 8, 0, 0, 2][k];
    if k < 4 {
      FirstCodesDiffer(k);
    } else if k < 7 {
      InvalidCodesDiffer(k);
    } else {
      LastCodesDiffer(k);
    }
  }

  lemma FirstCodesDiffer(k: nat)
    requires k < 4
    ensures DiffersAt(CodeAt(k), CodeAt(k + 1), [0, 1, 9, 0][k])
  {
  }

  lemma InvalidCodesDiffer(k: nat)
    requires 4 <= k < 7
    ensures DiffersAt(CodeAt(k), CodeAt(k + 1), [8, 18, 8][k - 4])
  {
  }

  lemma LastCodesDiffer(k: nat)
    requires 7 <= k < 11
    ensures DiffersAt(CodeAt(k), CodeAt(k + 1), [8, 0, 0, 2][k - 7])
  {
  }

  /** Strictly in the order of the codes. */
  predicate Below(a: string, b: string) {
    LexLe(a, b) && !LexLe(b, a)
  }

  lemma BelowNext(k: nat)
    requires k < 11
    ensures Below(CodeAt(k), CodeAt(k + 1))
  {
    var n := CodesDiffer(k);
    DifferenceOrders(CodeAt(k), CodeAt(k + 1), n);
  }

  lemma BelowTransitive(a: string, b: string, c: string)
    requires Below(a, b) && Below(b, c)
    ensures Below(a, c)
  {
    LexTransitive(a, b, c);
    if LexLe(c, a) {
      LexTransitive(c, a, b);
    }
  }

  lemma {:induction false} CodesInOrder(j: nat, k: nat)
    requires j < k < 12
    ensures Below(CodeAt(j), CodeAt(k))
    decreases k
  {
    BelowNext(k - 1);
    if j < k - 1 {
      CodesInOrder(j, k - 1);
      BelowTransitive(CodeAt(j), CodeAt(k - 1), CodeAt(k));
    }
  }

  /** The reasons stand in the order of their codes, each once. */
  predicate InOrder(reasons: seq<Reason>) {
    forall i, j :: 0 <= i < j < |reasons| ==> Below(CodeOf(reasons[i]), CodeOf(reasons[j]))
  }

  lemma {:induction false} ListedInOrder(reasons: set<Reason>, from: nat)
    requires from <= 12
    ensures InOrder(Listed(reasons, from))
    ensures forall r :: r in Listed(reasons, from) ==> exists k :: from <= k < 12 && SafeReasons()[k] == r
    decreases 12 - from
  {
    if from < 12 {
      var rest := Listed(reasons, from + 1);
      ListedInOrder(reasons, from + 1);
      forall r | r in rest
        ensures Below(CodeAt(from), CodeOf(r))
      {
        var k :| from + 1 <= k < 12 && SafeReasons()[k] == r;
        CodesInOrder(from, k);
      }
      Prepended(SafeReasons()[from], rest);
    }
  }

  lemma Prepended(r: Reason, rest: seq<Reason>)
    requires InOrder(rest) && forall x :: x in rest ==> Below(CodeOf(r), CodeOf(x))
    ensures InOrder([r] + rest)
  {
  }

  /** The report lists its reasons in the order of their codes, each once. */
  lemma ReasonsInOrder(input: Value, parses: string -> bool)
    ensures InOrder(Evaluated(input, parses).blockingReasons)
  {
    match ParseInput(input)
    case None => ListedInOrder(Reasons([Finding(InvalidCustomer, InvalidPreflightInput)]), 0);
    case Some(i) => ListedInOrder(Reasons(Log(i, parses)), 0);
  }
}
