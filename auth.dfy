/**
 * The authentication provider: the fixture account tables, the credential
 * match that `login` performs against them, the in-memory session it sets,
 * `logout`, and the lookup of a parent's children among the students.
 * There is no token, no storage and no network: the session lives in two
 * fields and a login is a search of a constant table.
 */
module Auth {
  import opened Wrappers
  import Seqs

  datatype Role = Student | Parent

  /**
   * A signed-in user: a fixture record without its password. The optional
   * fields are the ones only one of the two roles carries.
   */
  datatype Profile = Profile(
    id: string,
    email: string,
    name: string,
    role: Role,
    phone: string,
    className: Option<string>,
    rollNo: Option<string>,
    attendance: Option<int>,
    gpa: Option<real>,
    children: Option<seq<string>>)

  /** A fixture record: the profile and the password stored beside it. */
  datatype Account = Account(profile: Profile, password: string)

  function StudentRecord(id: string, email: string, name: string, className: string, rollNo: string,
                         phone: string, attendance: int, gpa: real): Account
  {
    Account(Profile(id, email, name, Student, phone, Some(className), Some(rollNo), Some(attendance), Some(gpa), None),
            "student123")
  }

  function ParentRecord(id: string, email: string, name: string, phone: string, children: seq<string>): Account
  {
    Account(Profile(id, email, name, Parent, phone, None, None, None, None, Some(children)), "parent123")
  }

  /** The student table, in table order. */
  const Students: seq<Account> := [
    StudentRecord("STU001", "alex@school.com", "Alex Johnson", "10-B", "15", "+1 234 567 8901", 85, 3.8),
    StudentRecord("STU002", "emma@school.com", "Emma Johnson", "8-A", "08", "+1 234 567 8902", 92, 3.5),
    StudentRecord("STU003", "michael@school.com", "Michael Johnson", "5-C", "12", "+1 234 567 8905", 78, 3.2)
  ]

  /** The parent table, in table order. */
  const Parents: seq<Account> := [
    ParentRecord("PAR001", "parent@school.com", "Robert Johnson", "+1 234 567 8903", ["STU001", "STU002", "STU003"]),
    ParentRecord("PAR002", "mary@school.com", "Mary Williams", "+1 234 567 8904", ["STU002"])
  ]

  /** The table `login` searches for a role; every record in it is tagged with that role. */
  function Accounts(role: Role): (r: seq<Account>)
    ensures |r| > 0
    ensures forall i :: 0 <= i < |r| ==> r[i].profile.role == role
  {
    if role == Student then Students
    else
      assert Parents[0].profile.role == Parents[1].profile.role == Parent;
      Parents
  }

  /** `String.prototype.toLowerCase` on one character (ASCII letters only). */
  function LowerChar(c: char): char
  {
    if 'A' <= c <= 'Z' then (c as int + 32) as char else c
  }

  function Lower(s: string): string
  {
    seq(|s|, i requires 0 <= i < |s| => LowerChar(s[i]))
  }

  /**
   * The predicate `login` passes to `find`: the e-mail or the id equals the
   * identifier up to case, and the password is exactly the one given.
   */
  predicate Matches(a: Account, identifier: string, password: string)
  {
    (Lower(a.profile.email) == Lower(identifier) || Lower(a.profile.id) == Lower(identifier))
    && a.password == password
  }

  /** The record `login` accepts: the first match in the role's table. */
  function FindAccount(role: Role, identifier: string, password: string): (r: Option<Account>)
    ensures r.Some? <==> exists i :: 0 <= i < |Accounts(role)| && Matches(Accounts(role)[i], identifier, password)
    ensures r.Some? ==> r.value in Accounts(role) && Matches(r.value, identifier, password)
    ensures r.Some? ==> r.value.profile.role == role
    ensures r.Some? ==> exists i :: 0 <= i < |Accounts(role)| && Accounts(role)[i] == r.value
                                 && forall j :: 0 <= j < i ==> !Matches(Accounts(role)[j], identifier, password)
  {
    var users := Accounts(role);
    var i := Seqs.FindIndex(users, (a: Account) => Matches(a, identifier, password));
    if i.Some? then Some(users[i.value]) else None
  }

  /** The identifier is compared up to case; the password is compared exactly. */
  lemma IdentifierCaseInsensitivePasswordNot()
    ensures FindAccount(Parent, "PARENT@School.com", "parent123") == Some(Parents[0])
    ensures FindAccount(Parent, "par002", "parent123") == Some(Parents[1])
    ensures FindAccount(Parent, "parent@school.com", "PARENT123") == None
  {
    assert Matches(Parents[0], "PARENT@School.com", "parent123");
    assert Matches(Parents[1], "par002", "parent123") by {
      assert Lower("PAR002") == Lower("par002") == "par002";
    }
    assert !Matches(Parents[1], "par002", "parent123") ==> false;
    assert !Matches(Parents[0], "par002", "parent123") by {
      assert Lower("PAR001")[5] != Lower("par002")[5];
      assert |Lower(Parents[0].profile.email)| != |Lower("par002")|;
    }
  }

  /** `getChildrenData`: the student records whose id is among `ids`, in table order. */
  function ChildrenData(ids: seq<string>): (r: seq<Account>)
    ensures |r| <= |Students|
    ensures forall a | a in r :: a in Students && a.profile.id in ids
    ensures forall a | a in Students && a.profile.id in ids :: a in r
  {
    Seqs.Filter(Students, (s: Account) => s.profile.id in ids)
  }

  /** `getChildrenData` lists the students in table order, not in the order of `ids`. */
  lemma ChildrenDataInTableOrder(ids: seq<string>, i: nat, j: nat)
    requires i < j < |ChildrenData(ids)|
    ensures exists k, l :: 0 <= k < l < |Students| && Students[k] == ChildrenData(ids)[i] && Students[l] == ChildrenData(ids)[j]
  {
    Seqs.FilterKeepsOrder(Students, (s: Account) => s.profile.id in ids, i, j);
  }

  /** Asked for the ids in reverse, `getChildrenData` still answers in table order. */
  lemma ChildrenDataIgnoresIdOrder()
    ensures ChildrenData(["STU002", "STU001"]) == [Students[0], Students[1]]
  {
    var ids := ["STU002", "STU001"];
    var p := (s: Account) => s.profile.id in ids;
    assert ChildrenData(ids) == Seqs.Filter(Students, p);
    assert !p(Students[2]) by { assert "STU003"[5] != "STU002"[5] && "STU003"[5] != "STU001"[5]; }
    assert Students == [Students[0]] + [Students[1]] + [Students[2]];
    Seqs.FilterConcat([Students[0]] + [Students[1]], [Students[2]], p);
    Seqs.FilterConcat([Students[0]], [Students[1]], p);
  }

  /** `getChildrenData(user?.children || [])`, as the parent screens compute it. */
  function LinkedChildren(user: Option<Profile>): (r: seq<Account>)
    ensures |r| <= |Students|
    ensures user.None? ==> r == []
    ensures forall a | a in r ::
              a in Students && user.Some? && user.value.children.Some? && a.profile.id in user.value.children.value
    ensures user.Some? && user.value.children.Some? ==>
              forall a | a in Students && a.profile.id in user.value.children.value :: a in r
  {
    ChildrenData(if user.Some? && user.value.children.Some? then user.value.children.value else [])
  }

  /** The first fixture parent is linked to every student, in table order. */
  lemma FirstParentChildren()
    ensures LinkedChildren(Some(Parents[0].profile)) == Students
  {
    var ids := ["STU001", "STU002", "STU003"];
    var p := (s: Account) => s.profile.id in ids;
    assert ChildrenData(ids) == Seqs.Filter(Students, p);
    Seqs.FilterKeepsAll(Students, p);
  }

  /** The second fixture parent is linked to Emma alone. */
  lemma SecondParentChildren()
    ensures LinkedChildren(Some(Parents[1].profile)) == [Students[1]]
  {
    var ids := ["STU002"];
    var p := (s: Account) => s.profile.id in ids;
    assert ChildrenData(ids) == Seqs.Filter(Students, p);
    assert !p(Students[0]) by { assert "STU001"[5] != "STU002"[5]; }
    assert !p(Students[2]) by { assert "STU003"[5] != "STU002"[5]; }
    assert Students == [Students[0]] + [Students[1]] + [Students[2]];
    Seqs.FilterConcat([Students[0]] + [Students[1]], [Students[2]], p);
    Seqs.FilterConcat([Students[0]], [Students[1]], p);
  }

  /** What `login` resolves to. */
  datatype LoginResult = LoginResult(success: bool, error: Option<string>)

  const InvalidCredentials: string := "Invalid email/ID or password"

  /** The provider's state: `user` and `userRole`. */
  class Session {
    var user: Option<Profile>
    var userRole: Option<Role>

    /** A user is present exactly when a role is, and the two agree. */
    ghost predicate Valid()
      reads this
    {
      (user.Some? <==> userRole.Some?) && (user.Some? ==> user.value.role == userRole.value)
    }

    /** `isAuthenticated: !!user`. */
    predicate IsAuthenticated()
      reads this
    {
      user.Some?
    }

    constructor ()
      ensures Valid() && user == None && userRole == None && !IsAuthenticated()
    {
      user := None;
      userRole := None;
    }

    method Login(email: string, password: string, role: Role) returns (result: LoginResult)
      requires Valid()
      modifies this
      ensures Valid()
      ensures result.success <==> FindAccount(role, email, password).Some?
      ensures result.success ==>
                user == Some(FindAccount(role, email, password).value.profile)
                && userRole == Some(role) && result.error == None && IsAuthenticated()
      ensures result.success ==> user.value.role == role
      ensures !result.success ==>
                user == old(user) && userRole == old(userRole) && result.error == Some(InvalidCredentials)
    {
      var found := FindAccount(role, email, password);
      if found.Some? {
        user := Some(found.value.profile);
        userRole := Some(role);
        result := LoginResult(true, None);
      } else {
        result := LoginResult(false, Some(InvalidCredentials));
      }
    }

    method Logout()
      modifies this
      ensures Valid() && user == None && userRole == None && !IsAuthenticated()
    {
      user := None;
      userRole := None;
    }
  }
}
