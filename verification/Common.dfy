/** Vocabulary shared by every service: callers, errors, documents and sums over rows. */
module Common {

  datatype Option<+T> = None | Some(value: T)

  datatype Role =
    | SystemAdmin
    | ClubSecretary
    | FacultyAdvisor
    | HallIncharge
    | AdvisorStudentsUnion
    | DeanStudentAffairs
    | Principal
    | FinanceOfficer

  /** A caller: `secretary` and `advisor` say whether it is the active secretary, or the
      designated faculty advisor, of the club that owns the event at hand. */
  datatype Actor = Actor(id: nat, role: Role, secretary: bool, advisor: bool)

  datatype Error =
    | NotFound
    | Unprocessable
    | BadRequest
    | Forbidden
    | Conflict
    | BusinessRule
    | WorkflowState
    | InvalidTransition
    | StaleData
    | OptimisticLock
    | CapExceeded
    | IntegrityViolation

  /** What one service call does to a record: a new record, or an error and no change. */
  datatype Outcome<+S> = Accepted(state: S) | Refused(error: Error) {
    function Reply(): Reply {
      if Accepted? then Done else Failed(error)
    }
  }

  /** What the caller of a service method is told. */
  datatype Reply = Done | Failed(error: Error)

  /** The record after a call: unchanged when the call was refused. */
  function After<S>(before: S, o: Outcome<S>): S {
    if o.Accepted? then o.state else before
  }

  datatype DocumentKind = ExpenseInvoice | IncomeEvidence | PaymentProof | OtherDocument

  /** An active document as a service sees it: `owned` when it belongs to the event at hand. */
  datatype Document = Document(id: nat, kind: DocumentKind, owned: bool)

  function Max(a: int, b: int): int { if a < b then b else a }

  function Min(a: int, b: int): int { if a < b then a else b }

  // ---------- sums over the rows of a table ----------

  function Sum<T>(rows: seq<T>, f: T -> int): int {
    if rows == [] then 0 else Sum(rows[..|rows| - 1], f) + f(rows[|rows| - 1])
  }

  lemma SumOfAppend<T>(rows: seq<T>, row: T, f: T -> int)
    ensures Sum(rows + [row], f) == Sum(rows, f) + f(row)
  {
    assert (rows + [row])[..|rows|] == rows;
  }

  /** Replacing one row moves the sum by the difference of the two rows. */
  lemma {:induction false} SumOfUpdate<T>(rows: seq<T>, i: nat, row: T, f: T -> int)
    requires i < |rows|
    ensures Sum(rows[i := row], f) == Sum(rows, f) - f(rows[i]) + f(row)
  {
    var n := |rows| - 1;
    if i == n {
      assert rows[i := row][..n] == rows[..n];
    } else {
      SumOfUpdate(rows[..n], i, row, f);
      assert rows[i := row][..n] == rows[..n][i := row];
    }
  }

  lemma {:induction false} SumIsNonNegative<T>(rows: seq<T>, f: T -> int)
    requires forall r :: r in rows ==> 0 <= f(r)
    ensures 0 <= Sum(rows, f)
  {
    if rows != [] {
      SumIsNonNegative(rows[..|rows| - 1], f);
    }
  }

  lemma {:induction false} SumOfSum<T>(rows: seq<T>, f: T -> int, g: T -> int, h: T -> int)
    requires forall r :: r in rows ==> h(r) == f(r) + g(r)
    ensures Sum(rows, h) == Sum(rows, f) + Sum(rows, g)
  {
    if rows != [] {
      SumOfSum(rows[..|rows| - 1], f, g, h);
    }
  }

  lemma {:induction false} SumOfMapped<T, U>(rows: seq<T>, g: T -> U, f: T -> int, h: U -> int)
    requires forall r :: r in rows ==> f(r) == h(g(r))
    ensures Sum(rows, f) == Sum(Mapped(rows, g), h)
  {
    if rows != [] {
      var init := rows[..|rows| - 1];
      SumOfMapped(init, g, f, h);
      assert Mapped(rows, g)[..|rows| - 1] == Mapped(init, g);
    }
  }

  // ---------- tables as bags of rows ----------

  function RemoveAt<T>(rows: seq<T>, k: nat): seq<T>
    requires k < |rows|
  {
    rows[..k] + rows[k + 1..]
  }

  lemma BagOfRemoveAt<T>(rows: seq<T>, k: nat)
    requires k < |rows|
    ensures multiset(rows) == multiset(RemoveAt(rows, k)) + multiset{rows[k]}
  {
    assert rows == rows[..k] + [rows[k]] + rows[k + 1..];
  }

  lemma BagOfLast<T>(rows: seq<T>)
    requires rows != []
    ensures multiset(rows) == multiset(rows[..|rows| - 1]) + multiset{rows[|rows| - 1]}
  {
    assert rows == rows[..|rows| - 1] + [rows[|rows| - 1]];
  }

  /** Where the last row of one ordering of a table stands in another ordering of it. */
  lemma LastRowElsewhere<T>(a: seq<T>, b: seq<T>) returns (k: nat)
    requires a != [] && multiset(a) == multiset(b)
    ensures k < |b| && b[k] == a[|a| - 1]
    ensures multiset(RemoveAt(b, k)) == multiset(a[..|a| - 1])
  {
    var last := a[|a| - 1];
    assert last in multiset(b);
    k :| 0 <= k < |b| && b[k] == last;
    BagOfRemoveAt(b, k);
    BagOfLast(a);
    assert multiset(RemoveAt(b, k)) == multiset(b) - multiset{last};
    assert multiset(a[..|a| - 1]) == multiset(a) - multiset{last};
  }

  lemma {:induction false} SumOfRemoveAt<T>(rows: seq<T>, k: nat, f: T -> int)
    requires k < |rows|
    ensures Sum(rows, f) == Sum(RemoveAt(rows, k), f) + f(rows[k])
  {
    var n := |rows| - 1;
    if k == n {
      assert RemoveAt(rows, k) == rows[..n];
    } else {
      SumOfRemoveAt(rows[..n], k, f);
      SumOfAppend(RemoveAt(rows[..n], k), rows[n], f);
      assert RemoveAt(rows, k) == RemoveAt(rows[..n], k) + [rows[n]];
    }
  }

  /** The rows are summed in whatever order the database returns them. */
  lemma {:induction false} SumIgnoresOrder<T>(a: seq<T>, b: seq<T>, f: T -> int)
    requires multiset(a) == multiset(b)
    ensures Sum(a, f) == Sum(b, f)
    decreases |a|
  {
    if a == [] {
      assert |multiset(b)| == 0;
    } else {
      var k := LastRowElsewhere(a, b);
      SumIgnoresOrder(a[..|a| - 1], RemoveAt(b, k), f);
      SumOfRemoveAt(b, k, f);
    }
  }

  function Mapped<T, U>(rows: seq<T>, g: T -> U): (r: seq<U>)
    ensures |r| == |rows|
    ensures forall i :: 0 <= i < |rows| ==> r[i] == g(rows[i])
  {
    seq(|rows|, i requires 0 <= i < |rows| => g(rows[i]))
  }
}
