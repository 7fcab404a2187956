/**
 * The evaluation's golden dataset (`TEST_CASES`) and its lookups: by
 * category, by id, and the whole table.
 */
module TestCases {
  import opened Wrappers
  import Text

  /** `TestCategory`. */
  datatype Category = Travel | Expense | Approval | EdgeCase | Negative

  /** The category's string value, the key the evaluation report groups by. */
  function CategoryValue(c: Category): (v: string)
    ensures |v| > 0
  {
    match c
    case Travel => "travel"
    case Expense => "expense"
    case Approval => "approval"
    case EdgeCase => "edge_case"
    case Negative => "negative"
  }

  /** Two categories never share a value, so grouping by value is grouping by category. */
  lemma CategoryValueInjective(c: Category, d: Category)
    ensures CategoryValue(c) == CategoryValue(d) <==> c == d
  {
  }

  /** `TestCase`. */
  datatype TestCase = TestCase(
    id: string,
    category: Category,
    query: string,
    employeeId: string,
    expectedApproved: bool,
    expectedPolicyRef: string,
    minConfidence: real,
    description: string,
    expectedEscalation: bool)

  // One constant per row of `TEST_CASES`.

  const Travel001: TestCase :=
    TestCase("travel-001", Travel, "Can I fly first class to London? It's an 8-hour flight.", "emp001",
      false, "travel-001", 0.8, "Level 5 employee cannot fly first class (requires Level 9+)", false)

  const Travel002: TestCase :=
    TestCase("travel-002", Travel, "Can I fly first class to London? It's an 8-hour flight.", "emp002",
      true, "travel-001", 0.7, "Level 9 Director qualifies for first class on 8+ hour international", true)

  const Travel003: TestCase :=
    TestCase("travel-003", Travel, "Can I fly business class from NYC to LA?", "emp002",
      false, "travel-001", 0.8, "Domestic flights are economy only regardless of level", false)

  const Travel004: TestCase :=
    TestCase("travel-004", Travel, "Can I fly business class to Tokyo? It's a 14-hour flight.", "emp001",
      false, "travel-001", 0.8, "Level 5 doesn't qualify for business class (requires Level 7+)", false)

  const Travel005: TestCase :=
    TestCase("travel-005", Travel, "Can I book a hotel for $350 per night in NYC?", "emp001",
      false, "travel-002", 0.8, "$350 exceeds domestic hotel limit of $200 for non-Directors", false)

  const Travel006: TestCase :=
    TestCase("travel-006", Travel, "Can I book a hotel for $350 per night in London?", "emp002",
      true, "travel-002", 0.8, "Directors can book up to $400/night, $350 international is within limit", false)

  const Expense001: TestCase :=
    TestCase("expense-001", Expense, "Can I expense a $100 dinner during my business trip?", "emp001",
      false, "expense-001", 0.8, "$100 exceeds domestic dinner limit of $50", false)

  const Expense002: TestCase :=
    TestCase("expense-002", Expense, "Can I expense meals totaling $70 today while traveling domestically?", "emp001",
      true, "expense-001", 0.8, "$70 is within the $75 daily domestic meal limit", false)

  const Expense003: TestCase :=
    TestCase("expense-003", Expense, "Can I expense a bottle of wine ($45) from a client dinner?", "emp001",
      false, "expense-001", 0.7, "Alcohol not reimbursable without prior approval for client entertainment", false)

  const Expense004: TestCase :=
    TestCase("expense-004", Expense, "Can I buy $400 software for my project?", "emp001",
      true, "expense-002", 0.8, "Software under $500 can be approved by direct manager", false)

  const Expense005: TestCase :=
    TestCase("expense-005", Expense, "Can I purchase $1500 software for my team?", "emp004",
      false, "expense-002", 0.8, "$1500 software needs Department Head approval", true)

  const Approval001: TestCase :=
    TestCase("approval-001", Approval, "Can I approve a $300 expense for my direct report?", "emp001",
      true, "approval-001", 0.8, "$300 under $500 threshold, manager can approve", false)

  const Approval002: TestCase :=
    TestCase("approval-002", Approval, "Can I approve my own $200 expense?", "emp002",
      false, "approval-002", 0.9, "Self-approval prohibited at all levels", false)

  const Approval003: TestCase :=
    TestCase("approval-003", Approval, "Can I approve a $8000 equipment purchase for my team?", "emp002",
      false, "approval-001", 0.8, "$8000 requires VP approval (Level 11+), Director cannot approve", true)

  const Approval004: TestCase :=
    TestCase("approval-004", Approval, "Can I approve a $15000 contract?", "emp003",
      false, "approval-001", 0.8, "$15000 exceeds $10000 threshold, requires CFO approval", true)

  const Edge001: TestCase :=
    TestCase("edge-001", EdgeCase, "I had an emergency and spent $800 without pre-approval. Can I submit it?", "emp001",
      true, "approval-001", 0.7, "Emergency expenses up to $1000 can be submitted post-facto", true)

  const Edge002: TestCase :=
    TestCase("edge-002", EdgeCase, "Can I expense gym membership for my home office?", "emp001",
      false, "compliance-002", 0.8, "Gym memberships explicitly prohibited in compliance policy", false)

  const Edge003: TestCase :=
    TestCase("edge-003", EdgeCase, "Can my spouse fly with me to the company conference?", "emp002",
      false, "compliance-002", 0.7, "Spouse travel requires pre-approval for specific events", true)

  const Negative001: TestCase :=
    TestCase("negative-001", Negative, "What's the policy on bringing pets to the office?", "emp001",
      false, "N/A", 0.0, "Query outside scope of expense/travel policies", true)

  const Negative002: TestCase :=
    TestCase("negative-002", Negative, "Can I donate company money to my friend's political campaign?", "emp001",
      false, "compliance-002", 0.8, "Political contributions explicitly prohibited", false)

  /** `TEST_CASES`, in table order. */
  const Cases: seq<TestCase> := [
    Travel001, Travel002, Travel003, Travel004, Travel005,
    Travel006, Expense001, Expense002, Expense003, Expense004,
    Expense005, Approval001, Approval002, Approval003, Approval004,
    Edge001, Edge002, Edge003, Negative001, Negative002
  ]

  // ---------------------------------------------------------------------------
  // Table invariants
  // ---------------------------------------------------------------------------

  /** The id prefix each category's cases use. */
  function IdPrefix(c: Category): string {
    match c
    case Travel => "travel-"
    case Expense => "expense-"
    case Approval => "approval-"
    case EdgeCase => "edge-"
    case Negative => "negative-"
  }

  predicate WellFormed(tc: TestCase) {
    && Text.StartsWith(tc.id, IdPrefix(tc.category))
    && 0.0 <= tc.minConfidence <= 1.0
  }

  predicate DistinctIds(cases: seq<TestCase>) {
    forall i, j :: 0 <= i < j < |cases| ==> cases[i].id != cases[j].id
  }

  /** `get_all_test_cases`: the table itself. */
  function AllTestCases(): (r: seq<TestCase>)
    ensures |r| == 20
    ensures forall i :: 0 <= i < |r| ==> WellFormed(r[i])
    ensures DistinctIds(r)
  {
    TableIsWellFormed();
    TableIdsAreDistinct();
    Cases
  }

  /** Every id starts with its category's prefix and every minimum confidence lies in [0, 1]. */
  lemma TableIsWellFormed()
    ensures forall i :: 0 <= i < |Cases| ==> WellFormed(Cases[i])
  {
    TravelRowsWellFormed();
    ExpenseRowsWellFormed();
    ApprovalRowsWellFormed();
    EdgeAndNegativeRowsWellFormed();
  }

  lemma TravelRowsWellFormed()
    ensures forall i :: 0 <= i < 6 ==> WellFormed(Cases[i])
  {
  }

  lemma ExpenseRowsWellFormed()
    ensures forall i :: 6 <= i < 11 ==> WellFormed(Cases[i])
  {
  }

  lemma ApprovalRowsWellFormed()
    ensures forall i :: 11 <= i < 15 ==> WellFormed(Cases[i])
  {
  }

  lemma EdgeAndNegativeRowsWellFormed()
    ensures forall i :: 15 <= i < 20 ==> WellFormed(Cases[i])
  {
  }

  /**
   * The position an id has in the table, read off its first two letters and
   * its last digit; a proof device for distinctness.
   */
  ghost function Position(id: string): int {
    if |id| < 2 then -1
    else
      var first := if id[0] == 't' then 0 else if id[0] == 'a' then 11 else if id[0] == 'n' then 18
                   else if id[1] == 'x' then 6 else 15;
      first + (id[|id| - 1] as int - '1' as int)
  }

  lemma PositionsMatchRows()
    ensures forall i :: 0 <= i < |Cases| ==> Position(Cases[i].id) == i
  {
    TravelPositions();
    ExpensePositions();
    ApprovalPositions();
    EdgeAndNegativePositions();
  }

  lemma TravelPositions()
    ensures forall i :: 0 <= i < 6 ==> Position(Cases[i].id) == i
  {
  }

  lemma ExpensePositions()
    ensures forall i :: 6 <= i < 11 ==> Position(Cases[i].id) == i
  {
  }

  lemma ApprovalPositions()
    ensures forall i :: 11 <= i < 15 ==> Position(Cases[i].id) == i
  {
  }

  lemma EdgeAndNegativePositions()
    ensures forall i :: 15 <= i < 20 ==> Position(Cases[i].id) == i
  {
  }

  /** No two cases share an id. */
  lemma TableIdsAreDistinct()
    ensures DistinctIds(Cases)
  {
    PositionsMatchRows();
  }

  // ---------------------------------------------------------------------------
  // Lookups
  // ---------------------------------------------------------------------------

  /** The cases whose category satisfies `keep`, in table order (a list comprehension with a condition). */
  function Where(cases: seq<TestCase>, keep: Category -> bool): (r: seq<TestCase>)
    ensures |r| <= |cases|
    ensures forall x :: x in r <==> x in cases && keep(x.category)
  {
    if cases == [] then []
    else if keep(cases[|cases| - 1].category) then Where(cases[..|cases| - 1], keep) + [cases[|cases| - 1]]
    else Where(cases[..|cases| - 1], keep)
  }

  /** Selection keeps table order: selecting from two halves and joining the results equals selecting from the whole. */
  lemma {:induction false} WhereAppend(a: seq<TestCase>, b: seq<TestCase>, keep: Category -> bool)
    ensures Where(a + b, keep) == Where(a, keep) + Where(b, keep)
    decreases |b|
  {
    if b == [] {
      assert a + b == a;
    } else {
      var b' := b[..|b| - 1];
      assert (a + b)[..|a + b| - 1] == a + b';
      assert (a + b)[|a + b| - 1] == b[|b| - 1];
      WhereAppend(a, b', keep);
    }
  }

  /** A selection that keeps every category keeps the whole table. */
  lemma {:induction false} WhereAllIsIdentity(cases: seq<TestCase>, keep: Category -> bool)
    requires forall c :: keep(c)
    ensures Where(cases, keep) == cases
  {
    if cases != [] {
      WhereAllIsIdentity(cases[..|cases| - 1], keep);
      assert cases[..|cases| - 1] + [cases[|cases| - 1]] == cases;
    }
  }

  /** `get_test_cases_by_category`. */
  function ByCategory(c: Category): (r: seq<TestCase>)
    ensures forall x :: x in r <==> x in Cases && x.category == c
  {
    Where(Cases, d => d == c)
  }

  /** The first case with the given id, or `None`: the specification of `FindById`. */
  function FirstWithId(cases: seq<TestCase>, id: string): (r: Option<TestCase>)
    ensures r.Some? ==> r.value in cases && r.value.id == id
    ensures r.None? <==> forall i :: 0 <= i < |cases| ==> cases[i].id != id
  {
    if cases == [] then None
    else if cases[0].id == id then Some(cases[0])
    else FirstWithId(cases[1..], id)
  }

  /** `get_test_case_by_id`: scan the table and return the first case with that id. */
  method FindById(id: string) returns (r: Option<TestCase>)
    ensures r == FirstWithId(Cases, id)
  {
    var i := 0;
    while i < |Cases|
      invariant 0 <= i <= |Cases|
      invariant FirstWithId(Cases, id) == FirstWithId(Cases[i..], id)
    {
      if Cases[i].id == id {
        return Some(Cases[i]);
      }
      assert Cases[i..][1..] == Cases[i + 1..];
      i := i + 1;
    }
    return None;
  }

  /** With distinct ids the lookup is unambiguous: a case's own id finds exactly that case. */
  lemma {:induction false} DistinctIdsFindThemselves(cases: seq<TestCase>, i: nat)
    requires DistinctIds(cases) && i < |cases|
    ensures FirstWithId(cases, cases[i].id) == Some(cases[i])
    decreases i
  {
    if i > 0 {
      assert cases[1..][i - 1] == cases[i];
      DistinctIdsFindThemselves(cases[1..], i - 1);
    }
  }

  /** Every case in the table is found by its id. */
  lemma EveryCaseIsFoundById(i: nat)
    requires i < |Cases|
    ensures FirstWithId(Cases, Cases[i].id) == Some(Cases[i])
  {
    TableIdsAreDistinct();
    DistinctIdsFindThemselves(Cases, i);
  }
}
