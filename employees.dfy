/**
 * The employee list store: each action computes a new list from the current
 * one and stores it in `employees`; `isLoading` is never touched.
 */
module Employees {
  import opened Wrappers

  /** One employee record; `None` is an absent optional field. Salaries are whole numbers here. */
  datatype Employee = Employee(
    id: string,
    address: string,
    name: string,
    email: Option<string>,
    department: Option<string>,
    salary: int,
    salaryCommitment: string,
    isActive: bool,
    startDate: string,
    lastPayment: Option<string>)

  /** `Partial<Employee>`: the fields an update supplies, `None` for those it leaves out. */
  datatype EmployeePatch = EmployeePatch(
    id: Option<string>,
    address: Option<string>,
    name: Option<string>,
    email: Option<string>,
    department: Option<string>,
    salary: Option<int>,
    salaryCommitment: Option<string>,
    isActive: Option<bool>,
    startDate: Option<string>,
    lastPayment: Option<string>)

  const EmptyPatch := EmployeePatch(None, None, None, None, None, None, None, None, None, None)

  /** A supplied value wins over the current one. */
  function Pick<T>(current: T, supplied: Option<T>): T
  {
    if supplied.Some? then supplied.value else current
  }

  /** A supplied value fills an optional field. */
  function PickOptional<T>(current: Option<T>, supplied: Option<T>): Option<T>
  {
    if supplied.Some? then supplied else current
  }

  /** The record with every field the update supplies replaced; the other fields stay. */
  function Merge(e: Employee, p: EmployeePatch): (r: Employee)
    ensures p.id.Some? ==> r.id == p.id.value
    ensures p.id.None? ==> r.id == e.id
    ensures p.address.Some? ==> r.address == p.address.value
    ensures p.address.None? ==> r.address == e.address
    ensures p.name.Some? ==> r.name == p.name.value
    ensures p.name.None? ==> r.name == e.name
    ensures p.email.Some? ==> r.email == p.email
    ensures p.email.None? ==> r.email == e.email
    ensures p.department.Some? ==> r.department == p.department
    ensures p.department.None? ==> r.department == e.department
    ensures p.salary.Some? ==> r.salary == p.salary.value
    ensures p.salary.None? ==> r.salary == e.salary
    ensures p.salaryCommitment.Some? ==> r.salaryCommitment == p.salaryCommitment.value
    ensures p.salaryCommitment.None? ==> r.salaryCommitment == e.salaryCommitment
    ensures p.isActive.Some? ==> r.isActive == p.isActive.value
    ensures p.isActive.None? ==> r.isActive == e.isActive
    ensures p.startDate.Some? ==> r.startDate == p.startDate.value
    ensures p.startDate.None? ==> r.startDate == e.startDate
    ensures p.lastPayment.Some? ==> r.lastPayment == p.lastPayment
    ensures p.lastPayment.None? ==> r.lastPayment == e.lastPayment
  {
    Employee(
      Pick(e.id, p.id), Pick(e.address, p.address), Pick(e.name, p.name),
      PickOptional(e.email, p.email), PickOptional(e.department, p.department),
      Pick(e.salary, p.salary), Pick(e.salaryCommitment, p.salaryCommitment),
      Pick(e.isActive, p.isActive), Pick(e.startDate, p.startDate),
      PickOptional(e.lastPayment, p.lastPayment))
  }

  /** Two updates combined into one: where both supply a field, the later one wins. */
  function Overlay(p: EmployeePatch, q: EmployeePatch): EmployeePatch
  {
    EmployeePatch(
      PickOptional(p.id, q.id), PickOptional(p.address, q.address), PickOptional(p.name, q.name),
      PickOptional(p.email, q.email), PickOptional(p.department, q.department),
      PickOptional(p.salary, q.salary), PickOptional(p.salaryCommitment, q.salaryCommitment),
      PickOptional(p.isActive, q.isActive), PickOptional(p.startDate, q.startDate),
      PickOptional(p.lastPayment, q.lastPayment))
  }

  /** An update supplying nothing changes nothing. */
  lemma MergeEmpty(e: Employee)
    ensures Merge(e, EmptyPatch) == e
  {
  }

  /** Applying the same update twice is applying it once. */
  lemma MergeIdempotent(e: Employee, p: EmployeePatch)
    ensures Merge(Merge(e, p), p) == Merge(e, p)
  {
  }

  /** Two updates in a row are one update with the later values winning. */
  lemma MergeCompose(e: Employee, p: EmployeePatch, q: EmployeePatch)
    ensures Merge(Merge(e, p), q) == Merge(e, Overlay(p, q))
  {
  }

  predicate HasId(list: seq<Employee>, id: string)
  {
    exists i :: 0 <= i < |list| && list[i].id == id
  }

  /** The list with the update merged into every entry whose id matches, in place. */
  function Updated(list: seq<Employee>, id: string, p: EmployeePatch): (r: seq<Employee>)
    ensures |r| == |list|
    ensures forall i :: 0 <= i < |list| && list[i].id != id ==> r[i] == list[i]
    ensures forall i :: 0 <= i < |list| && list[i].id == id ==> r[i] == Merge(list[i], p)
  {
    seq(|list|, i requires 0 <= i < |list| => if list[i].id == id then Merge(list[i], p) else list[i])
  }

  /** An update for an id nobody has leaves the list as it is. */
  lemma UpdateAbsentId(list: seq<Employee>, id: string, p: EmployeePatch)
    requires !HasId(list, id)
    ensures Updated(list, id, p) == list
  {
  }

  /** An update that does not change ids can be applied twice to the same effect. */
  lemma UpdateIdempotent(list: seq<Employee>, id: string, p: EmployeePatch)
    requires p.id.None? || p.id == Some(id)
    ensures Updated(Updated(list, id, p), id, p) == Updated(list, id, p)
  {
    var once := Updated(list, id, p);
    forall i | 0 <= i < |list| ensures Updated(once, id, p)[i] == once[i] {
      if list[i].id == id {
        MergeIdempotent(list[i], p);
      }
    }
  }

  /** The list without the entries whose id matches, the others in their order. */
  function Removed(list: seq<Employee>, id: string): (r: seq<Employee>)
    ensures |r| <= |list|
    ensures forall e :: e in r ==> e in list && e.id != id
    ensures forall e :: e in list && e.id != id ==> e in r
    ensures forall e: Employee :: e.id != id ==> multiset(r)[e] == multiset(list)[e]
    ensures forall e: Employee :: e.id == id ==> multiset(r)[e] == 0
  {
    if |list| == 0 then []
    else
      var x, tail := list[0], list[1..];
      var rest := Removed(tail, id);
      assert list == [x] + tail;
      assert multiset(list) == multiset{x} + multiset(tail);
      assert forall e :: e in list <==> e == x || e in tail;
      if x.id == id then rest
      else
        assert multiset([x] + rest) == multiset{x} + multiset(rest);
        assert forall e :: e in [x] + rest <==> e == x || e in rest;
        [x] + rest
  }

  /** `s` is `t` with some elements left out, the rest in their order. */
  predicate IsSubsequence(s: seq<Employee>, t: seq<Employee>)
    decreases |t|
  {
    if |s| == 0 then true
    else if |t| == 0 then false
    else if s[0] == t[0] then IsSubsequence(s[1..], t[1..])
    else IsSubsequence(s, t[1..])
  }

  /** Removal keeps the other entries in their original order. */
  lemma {:induction false} RemovedIsSubsequence(list: seq<Employee>, id: string)
    ensures IsSubsequence(Removed(list, id), list)
  {
    if |list| > 0 {
      RemovedIsSubsequence(list[1..], id);
      var rest := Removed(list[1..], id);
      if list[0].id == id {
        SubsequenceOfTail(rest, list);
      } else {
        assert ([list[0]] + rest)[1..] == rest;
      }
    }
  }

  /** A subsequence of the tail is a subsequence of the whole. */
  lemma {:induction false} SubsequenceOfTail(s: seq<Employee>, t: seq<Employee>)
    requires |t| > 0 && IsSubsequence(s, t[1..])
    ensures IsSubsequence(s, t)
    decreases |s| + |t|
  {
    if |s| > 0 && s[0] == t[0] {
      SubsequenceDropFirst(s, t[1..]);
    }
  }

  /** Leaving out the first element of a subsequence keeps it a subsequence. */
  lemma {:induction false} SubsequenceDropFirst(s: seq<Employee>, t: seq<Employee>)
    requires |s| > 0 && IsSubsequence(s, t)
    ensures IsSubsequence(s[1..], t)
    decreases |s| + |t|
  {
    if s[0] != t[0] {
      SubsequenceDropFirst(s, t[1..]);
    }
    SubsequenceOfTail(s[1..], t);
  }

  /** Removing an id nobody has leaves the list as it is. */
  lemma {:induction false} RemoveAbsentId(list: seq<Employee>, id: string)
    requires !HasId(list, id)
    ensures Removed(list, id) == list
  {
    if |list| > 0 {
      assert !HasId(list[1..], id) by {
        forall i | 0 <= i < |list[1..]| ensures list[1..][i].id != id {
          assert list[1..][i] == list[i + 1];
        }
      }
      RemoveAbsentId(list[1..], id);
      assert list[0].id != id;
      assert [list[0]] + list[1..] == list;
    }
  }

  /** Removal works part by part: removing from a concatenation removes from each part. */
  lemma {:induction false} RemovedConcat(a: seq<Employee>, b: seq<Employee>, id: string)
    ensures Removed(a + b, id) == Removed(a, id) + Removed(b, id)
  {
    if |a| > 0 {
      assert (a + b)[1..] == a[1..] + b;
      RemovedConcat(a[1..], b, id);
    } else {
      assert a + b == b;
    }
  }

  /** Removing twice is removing once. */
  lemma {:induction false} RemovedIdempotent(list: seq<Employee>, id: string)
    ensures Removed(Removed(list, id), id) == Removed(list, id)
  {
    var r := Removed(list, id);
    assert !HasId(r, id) by {
      forall i | 0 <= i < |r| ensures r[i].id != id {
        assert r[i] in r;
      }
    }
    RemoveAbsentId(r, id);
  }

  /** Removing a just-added employee's id also removes every earlier entry with it. */
  lemma AddThenRemove(list: seq<Employee>, e: Employee)
    ensures Removed(list + [e], e.id) == Removed(list, e.id)
  {
    RemovedConcat(list, [e], e.id);
    assert Removed([e], e.id) == [];
  }

  class EmployeeStore {
    var employees: seq<Employee>
    var isLoading: bool

    constructor ()
      ensures employees == [] && !isLoading
    {
      employees := [];
      isLoading := false;
    }

    /** `addEmployee(employee)`: appended at the end. */
    method AddEmployee(employee: Employee)
      modifies this
      ensures employees == old(employees) + [employee]
      ensures isLoading == old(isLoading)
    {
      employees := employees + [employee];
    }

    /** `updateEmployee(id, updates)`: every entry with that id gets the update merged in. */
    method UpdateEmployee(id: string, updates: EmployeePatch)
      modifies this
      ensures employees == Updated(old(employees), id, updates)
      ensures isLoading == old(isLoading)
    {
      employees := Updated(employees, id, updates);
    }

    /** `removeEmployee(id)`: every entry with that id is dropped. */
    method RemoveEmployee(id: string)
      modifies this
      ensures employees == Removed(old(employees), id)
      ensures isLoading == old(isLoading)
    {
      employees := Removed(employees, id);
    }

    /** `setEmployees(employees)`: the list is replaced wholesale. */
    method SetEmployees(list: seq<Employee>)
      modifies this
      ensures employees == list
      ensures isLoading == old(isLoading)
    {
      employees := list;
    }
  }
}
