/** The transformation verifier: what the demo seed may do to the protected rows, as the source checks it and as one relation. */
module Transformation {
  import opened Wrappers
  import opened Sequences
  import opened Bytes
  import opened StateTypes
  import Texts

  datatype Rule = RelationSet | RelationChanged | RolePermissionSet | UserOwner | UserSeed | UserOther | UserPassword | UserTimestamp
                | ScopePreserved | ScopeCreated | ScopeSet
  datatype PasswordState = DefaultPassword | OtherPassword | InvalidHash

  const USERS_CLAUSE: nat := 3

  /** Which clause of the relation a reported rule belongs to. */
  function ClauseOf(rule: Rule): nat {
    match rule
    case RelationSet => 0
    case RelationChanged => 1
    case RolePermissionSet => 2
    case UserOwner => 3 case UserSeed => 3 case UserOther => 3 case UserPassword => 3 case UserTimestamp => 3
    case ScopePreserved => 4 case ScopeCreated => 4 case ScopeSet => 4
  }

  /** A canonical assignment: company-wide without a branch code, for one location with it. */
  datatype Assignment = Assignment(userId: Text, email: Text, roleCode: Text, branchCode: Option<Text>)
  datatype Seed = Seed(ownerEmail: Text, userEmails: set<Text>, timestamp: Text, assignments: seq<Assignment>)

  const USER_TABLE := "User"
  const SCOPE_TABLE := "UserRoleScope"
  const ROLE_TABLE := "Role"
  const LOCATION_TABLE := "Location"
  const PERMISSION_TABLE := "RolePermission"

  const USER_ID: nat := 0
  const USER_EMAIL: nat := 2
  const USER_HASH: nat := 3
  const USER_CREATED: nat := 5
  const USER_UPDATED: nat := 6
  const USER_ARITY: nat := 9
  const SCOPE_ID: nat := 0
  const SCOPE_ARITY: nat := 5
  const ROLE_ID: nat := 0
  const ROLE_CODE: nat := 1
  const LOCATION_ID: nat := 0
  const LOCATION_CODE: nat := 3

  /** The stream writer has let through only rows of their table's arity. */
  predicate Shaped(rows: seq<Row>, arity: nat) {
    forall i :: 0 <= i < |rows| ==> |rows[i]| == arity
  }

  function ValuesOf(rows: seq<Row>, k: nat): seq<Cell>
    requires forall i :: 0 <= i < |rows| ==> k < |rows[i]|
  {
    seq(|rows|, i requires 0 <= i < |rows| => rows[i][k])
  }

  /** The rows by one column; a later row of the same value replaces an earlier one. */
  function Index(rows: seq<Row>, k: nat): map<Cell, Row>
    requires forall i :: 0 <= i < |rows| ==> k < |rows[i]|
  {
    if |rows| == 0 then map[] else Index(rows[..|rows| - 1], k)[rows[|rows| - 1][k] := rows[|rows| - 1]]
  }

  lemma {:induction false} IndexKeys(rows: seq<Row>, k: nat)
    requires forall i :: 0 <= i < |rows| ==> k < |rows[i]|
    ensures Index(rows, k).Keys == ToSet(ValuesOf(rows, k))
    ensures forall c :: c in Index(rows, k) ==> Index(rows, k)[c] in rows && Index(rows, k)[c][k] == c
  {
    if |rows| > 0 {
      var front := rows[..|rows| - 1];
      IndexKeys(front, k);
      assert rows == front + [rows[|rows| - 1]];
      assert ValuesOf(rows, k) == ValuesOf(front, k) + [rows[|rows| - 1][k]];
    }
  }

  /** As many keys as rows means no key twice, and then each row is found under its own key. */
  lemma IndexFinds(rows: seq<Row>, k: nat)
    requires forall i :: 0 <= i < |rows| ==> k < |rows[i]|
    ensures |Index(rows, k)| == |rows| <==> Distinct(ValuesOf(rows, k))
    ensures Distinct(ValuesOf(rows, k)) ==> forall r :: r in rows ==> r[k] in Index(rows, k) && Index(rows, k)[r[k]] == r
  {
    IndexKeys(rows, k);
    SetSize(ValuesOf(rows, k));
    assert |Index(rows, k)| == |Index(rows, k).Keys|;
    if Distinct(ValuesOf(rows, k)) {
      forall r | r in rows ensures r[k] in Index(rows, k) && Index(rows, k)[r[k]] == r {
        var i :| 0 <= i < |rows| && rows[i] == r;
        assert ValuesOf(rows, k)[i] == r[k];
        var found := Index(rows, k)[r[k]];
        var j :| 0 <= j < |rows| && rows[j] == found;
        assert ValuesOf(rows, k)[j] == ValuesOf(rows, k)[i];
      }
    }
  }

  // ---- users ---------------------------------------------------------------------------------------------------

  datatype UserClass = Owner | SeedUser | OtherUser

  function ClassOf(r: Row, seed: Seed): UserClass
    requires |r| == USER_ARITY
  {
    if r[USER_EMAIL] == Some(seed.ownerEmail) then Owner
    else if r[USER_EMAIL].Some? && r[USER_EMAIL].value in seed.userEmails then SeedUser
    else OtherUser
  }

  function RuleOf(c: UserClass): Rule {
    match c
    case Owner => UserOwner
    case SeedUser => UserSeed
    case OtherUser => UserOther
  }

  /** Seed users keep everything but their hash, which must be one of the default password, and carry the pinned timestamp;
      everyone else keeps everything. */
  predicate UserRule(before: Row, after: Row, seed: Seed, password: Cell -> PasswordState)
    requires |before| == USER_ARITY && |after| == USER_ARITY
  {
    if ClassOf(before, seed).SeedUser? then
      && after == before[USER_HASH := after[USER_HASH]]
      && after[USER_CREATED] == Some(seed.timestamp) && after[USER_UPDATED] == Some(seed.timestamp)
      && password(after[USER_HASH]).DefaultPassword?
    else after == before
  }

  /** Users correspond one to one by id, an owner exists, and each obeys the rule of its class. */
  predicate UsersAccepted(before: seq<Row>, after: seq<Row>, seed: Seed, password: Cell -> PasswordState)
    requires Shaped(before, USER_ARITY) && Shaped(after, USER_ARITY)
  {
    && Distinct(ValuesOf(before, USER_ID)) && Distinct(ValuesOf(after, USER_ID))
    && ToSet(ValuesOf(before, USER_ID)) == ToSet(ValuesOf(after, USER_ID))
    && (exists r :: r in before && r[USER_EMAIL] == Some(seed.ownerEmail))
    && (forall b, a :: b in before && a in after && b[USER_ID] == a[USER_ID] ==> UserRule(b, a, seed, password))
  }

  /** What the source looks at: as many rows after as before, no id twice after, an owner, and each row from before is found by its id
      and obeys its rule. */
  predicate UsersPass(before: seq<Row>, after: seq<Row>, seed: Seed, password: Cell -> PasswordState)
    requires Shaped(before, USER_ARITY) && Shaped(after, USER_ARITY)
  {
    && Distinct(ValuesOf(after, USER_ID)) && |after| == |before|
    && (exists r :: r in before && r[USER_EMAIL] == Some(seed.ownerEmail))
    && (forall b :: b in before ==> exists a :: a in after && a[USER_ID] == b[USER_ID] && UserRule(b, a, seed, password))
  }

  lemma ColumnMembers(rows: seq<Row>, k: nat)
    requires forall i :: 0 <= i < |rows| ==> k < |rows[i]|
    ensures forall r :: r in rows ==> r[k] in ToSet(ValuesOf(rows, k))
    ensures forall c :: c in ToSet(ValuesOf(rows, k)) ==> exists r :: r in rows && r[k] == c
  {
    forall r | r in rows ensures r[k] in ToSet(ValuesOf(rows, k)) {
      var i :| 0 <= i < |rows| && rows[i] == r;
      assert ValuesOf(rows, k)[i] == r[k];
    }
    forall c | c in ToSet(ValuesOf(rows, k)) ensures exists r :: r in rows && r[k] == c {
      var i :| 0 <= i < |rows| && ValuesOf(rows, k)[i] == c;
      assert rows[i] in rows;
    }
  }

  lemma SameId(rows: seq<Row>, k: nat, a: Row, b: Row)
    requires forall i :: 0 <= i < |rows| ==> k < |rows[i]|
    requires Distinct(ValuesOf(rows, k)) && a in rows && b in rows && a[k] == b[k]
    ensures a == b
  {
    var i :| 0 <= i < |rows| && rows[i] == a;
    var j :| 0 <= j < |rows| && rows[j] == b;
    assert ValuesOf(rows, k)[i] == ValuesOf(rows, k)[j];
  }

  /** The checks mean the correspondence exactly when no id occurs twice before: they never look for rows that no row from before
      leads to. */
  lemma PassingIsAcceptance(before: seq<Row>, after: seq<Row>, seed: Seed, password: Cell -> PasswordState)
    requires Shaped(before, USER_ARITY) && Shaped(after, USER_ARITY)
    ensures UsersAccepted(before, after, seed, password) <==>
            UsersPass(before, after, seed, password) && Distinct(ValuesOf(before, USER_ID))
  {
    hide UserRule, ValuesOf, Distinct, ToSet;
    var ids, idsAfter := ToSet(ValuesOf(before, USER_ID)), ToSet(ValuesOf(after, USER_ID));
    ColumnMembers(before, USER_ID);
    ColumnMembers(after, USER_ID);
    SetSize(ValuesOf(before, USER_ID));
    SetSize(ValuesOf(after, USER_ID));
    ColumnLengths(before, after);
    if UsersPass(before, after, seed, password) && Distinct(ValuesOf(before, USER_ID)) {
      forall c | c in ids ensures c in idsAfter {
        var b :| b in before && b[USER_ID] == c;
        var a :| a in after && a[USER_ID] == b[USER_ID] && UserRule(b, a, seed, password);
      }
      SubsetSize(ids, idsAfter);
      forall b, a | b in before && a in after && b[USER_ID] == a[USER_ID] ensures UserRule(b, a, seed, password) {
        var found :| found in after && found[USER_ID] == b[USER_ID] && UserRule(b, found, seed, password);
        SameId(after, USER_ID, found, a);
      }
    }
    if UsersAccepted(before, after, seed, password) {
      forall b | b in before ensures exists a :: a in after && a[USER_ID] == b[USER_ID] && UserRule(b, a, seed, password) {
        assert b[USER_ID] in idsAfter;
        var a :| a in after && a[USER_ID] == b[USER_ID];
      }
    }
  }

  lemma ColumnLengths(before: seq<Row>, after: seq<Row>)
    requires Shaped(before, USER_ARITY) && Shaped(after, USER_ARITY)
    ensures |ValuesOf(before, USER_ID)| == |before| && |ValuesOf(after, USER_ID)| == |after|
  {
  }

  /** Between an id that occurs twice before and the same rows with another user in the second place, nothing is found: the other
      user is never looked at. */
  lemma RepeatedIdHidesARow(a: Row, b: Row, seed: Seed, password: Cell -> PasswordState)
    requires |a| == |b| == USER_ARITY && a[USER_ID] != b[USER_ID] && a[USER_EMAIL] == Some(seed.ownerEmail)
    ensures UsersPass([a, a], [a, b], seed, password) && !UsersAccepted([a, a], [a, b], seed, password)
  {
    assert a in [a, a] && a in [a, b];
    assert ValuesOf([a, a], USER_ID)[0] == ValuesOf([a, a], USER_ID)[1];
    assert UserRule(a, a, seed, password);
  }

  /** One user against its row afterwards. */
  method VerifyUser(before: Row, after: Row, seed: Seed, password: Cell -> PasswordState) returns (violation: Option<Rule>)
    requires |before| == USER_ARITY && |after| == USER_ARITY
    ensures violation.None? <==> UserRule(before, after, seed, password)
    ensures violation.Some? ==> ClauseOf(violation.value) == USERS_CLAUSE
  {
    violation := None;
    if ClassOf(before, seed).SeedUser? {
      if after[USER_CREATED] != before[USER_CREATED] || after[USER_UPDATED] != before[USER_UPDATED]
         || after[USER_CREATED] != Some(seed.timestamp) || after[USER_UPDATED] != Some(seed.timestamp) {
        return Some(UserTimestamp);
      }
      if exists i :: 0 <= i < |before| && i != USER_HASH && before[i] != after[i] {
        return Some(UserSeed);
      }
      if !password(after[USER_HASH]).DefaultPassword? {
        return Some(UserPassword);
      }
    } else if before != after {
      return Some(RuleOf(ClassOf(before, seed)));
    }
  }

  method VerifyUsers(before: seq<Row>, after: seq<Row>, seed: Seed, password: Cell -> PasswordState) returns (violation: Option<Rule>)
    requires Shaped(before, USER_ARITY) && Shaped(after, USER_ARITY)
    ensures violation.None? <==> UsersPass(before, after, seed, password)
    ensures violation.Some? ==> ClauseOf(violation.value) == USERS_CLAUSE
  {
    hide UserRule, ClassOf, Index, ValuesOf, Distinct;
    var usersAfter := Index(after, USER_ID);
    IndexFinds(after, USER_ID);
    IndexKeys(after, USER_ID);
    ColumnMembers(after, USER_ID);
    if |usersAfter| != |after| || |usersAfter| != |before| {
      return Some(UserOther);
    }
    if !exists i :: 0 <= i < |before| && before[i][USER_EMAIL] == Some(seed.ownerEmail) {
      return Some(UserOwner);
    }
    var i := 0;
    while i < |before|
      invariant 0 <= i <= |before|
      invariant forall k :: 0 <= k < i ==> before[k][USER_ID] in usersAfter && UserRule(before[k], usersAfter[before[k][USER_ID]], seed, password)
    {
      if before[i][USER_ID] !in usersAfter {
        assert before[i] in before;
        return Some(RuleOf(ClassOf(before[i], seed)));
      }
      violation := VerifyUser(before[i], usersAfter[before[i][USER_ID]], seed, password);
      if violation.Some? {
        assert before[i] in before;
        return;
      }
      i := i + 1;
    }
    violation := None;
  }

  /** Who may change, and how, by email: a seed user other than the owner may get another hash, of the default password, and carries the
      pinned timestamp before and after; everyone else keeps every cell. */
  lemma UserRuleMeans(before: Row, after: Row, seed: Seed, password: Cell -> PasswordState)
    requires |before| == USER_ARITY && |after| == USER_ARITY
    ensures UserRule(before, after, seed, password) <==>
            if before[2] != Some(seed.ownerEmail) && exists email :: email in seed.userEmails && before[2] == Some(email) then
              && (forall k :: 0 <= k < 9 && k != 3 ==> after[k] == before[k])
              && before[5] == Some(seed.timestamp) && before[6] == Some(seed.timestamp) && password(after[3]) == DefaultPassword
            else forall k :: 0 <= k < 9 ==> after[k] == before[k]
  {
    if ClassOf(before, seed).SeedUser? {
      if UserRule(before, after, seed, password) {
        assert forall k :: 0 <= k < 9 && k != 3 ==> after[k] == before[USER_HASH := after[USER_HASH]][k];
        assert after[5] == before[5] && after[6] == before[6];
      }
      if forall k :: 0 <= k < 9 && k != 3 ==> after[k] == before[k] {
        assert after == before[USER_HASH := after[USER_HASH]];
      }
    } else if forall k :: 0 <= k < 9 ==> after[k] == before[k] {
      assert after == before;
    }
  }

  /** So in an accepted outcome nobody appears, nobody disappears, and a user whose row differs is a seed user with a hash of the default
      password and nothing else changed. */
  lemma OnlySeedUsersChange(before: seq<Row>, after: seq<Row>, seed: Seed, password: Cell -> PasswordState, a: Row)
    requires Shaped(before, USER_ARITY) && Shaped(after, USER_ARITY)
    requires UsersAccepted(before, after, seed, password) && a in after && a !in before
    ensures exists b, email :: b in before && b[0] == a[0] && b[2] == Some(email) && email in seed.userEmails && email != seed.ownerEmail
              && (forall k :: 0 <= k < 9 && k != 3 ==> a[k] == b[k]) && password(a[3]) == DefaultPassword
  {
    hide UserRule;
    ColumnMembers(before, USER_ID);
    ColumnMembers(after, USER_ID);
    assert a[USER_ID] in ToSet(ValuesOf(before, USER_ID));
    var b :| b in before && b[USER_ID] == a[USER_ID];
    assert UserRule(b, a, seed, password);
    UserRuleMeans(b, a, seed, password);
    assert a != b;
    var k :| 0 <= k < 9 && a[k] != b[k];
    var email :| email in seed.userEmails && b[2] == Some(email);
    assert b[0] == a[0] && email != seed.ownerEmail;
  }

  // ---- scopes --------------------------------------------------------------------------------------------------

  /** A version 4 UUID in lower case. */
  predicate IsNewId(c: Cell) {
    c.Some? && c.value.Scalars? && Texts.IsUuidV4(c.value.s) && Texts.Lower(c.value.s) == c.value.s
  }

  /** 36 characters: hyphens after 8, 13, 18 and 23 of them, the version, the variant, and lower-case hexadecimal digits elsewhere. */
  lemma NewIdMeans(c: Cell)
    ensures IsNewId(c) <==>
            && c.Some? && c.value.Scalars? && |c.value.s| == 36
            && forall i :: 0 <= i < 36 ==>
                 var x := c.value.s[i];
                 if i == 8 || i == 13 || i == 18 || i == 23 then x == '-'
                 else if i == 14 then x == '4'
                 else if i == 19 then x == '8' || x == '9' || x == 'a' || x == 'b'
                 else '0' <= x <= '9' || 'a' <= x <= 'f'
  {
    if c.Some? && c.value.Scalars? {
      var s := c.value.s;
      assert Texts.Lower(s) == s <==> forall i :: 0 <= i < |s| ==> Texts.LowerChar(s[i]) == s[i];
    }
  }

  function IdOf(r: Row): Cell {
    if |r| > 0 then r[0] else None
  }

  /** A scope row without its id: user, role, kind, location. */
  function Content(r: Row): Row {
    if |r| > 0 then r[1..] else []
  }

  function Ids(rows: seq<Row>): seq<Cell> {
    Map(IdOf, rows)
  }

  function Contents(rows: seq<Row>): seq<Row> {
    Map(Content, rows)
  }

  function Lookup(rows: seq<Row>, key: nat, value: nat): map<Cell, Cell>
    requires forall i :: 0 <= i < |rows| ==> key < |rows[i]| && value < |rows[i]|
  {
    if |rows| == 0 then map[]
    else Lookup(rows[..|rows| - 1], key, value)[rows[|rows| - 1][key] := rows[|rows| - 1][value]]
  }

  /** The scope row content an assignment stands for: nothing for a location assignment while there are no locations, an error when
      its role, or its location among others, is missing. */
  function TargetOf(a: Assignment, roleIds: map<Cell, Cell>, locationIds: map<Cell, Cell>): Result<Option<Row>, ()> {
    if Some(a.roleCode) !in roleIds then Err(())
    else if a.branchCode.None? then Ok(Some([Some(a.userId), roleIds[Some(a.roleCode)], Some(Scalars("COMPANY")), None]))
    else if |locationIds| == 0 then Ok(None)
    else if a.branchCode !in locationIds then Err(())
    else Ok(Some([Some(a.userId), roleIds[Some(a.roleCode)], Some(Scalars("LOCATION")), locationIds[a.branchCode]]))
  }

  /** The last row with this value in the column. */
  ghost predicate IsLastWith(rows: seq<Row>, key: nat, c: Cell, r: Row)
    requires forall i :: 0 <= i < |rows| ==> key < |rows[i]|
  {
    exists i :: 0 <= i < |rows| && rows[i] == r && r[key] == c && forall j :: i < j < |rows| ==> rows[j][key] != c
  }

  lemma {:induction false} LookupFindsTheLast(rows: seq<Row>, key: nat, value: nat, c: Cell)
    requires forall i :: 0 <= i < |rows| ==> key < |rows[i]| && value < |rows[i]|
    ensures c in Lookup(rows, key, value) <==> exists r :: r in rows && r[key] == c
    ensures forall r :: IsLastWith(rows, key, c, r) ==> c in Lookup(rows, key, value) && Lookup(rows, key, value)[c] == r[value]
  {
    if |rows| > 0 {
      var n := |rows| - 1;
      LookupFindsTheLast(rows[..n], key, value, c);
      assert rows == rows[..n] + [rows[n]];
      forall r | IsLastWith(rows, key, c, r) ensures c in Lookup(rows, key, value) && Lookup(rows, key, value)[c] == r[value] {
        LastWithout(rows, key, c, r);
      }
    }
  }

  lemma LastWithout(rows: seq<Row>, key: nat, c: Cell, r: Row)
    requires |rows| > 0 && (forall i :: 0 <= i < |rows| ==> key < |rows[i]|) && IsLastWith(rows, key, c, r)
    ensures rows[|rows| - 1][key] == c ==> r == rows[|rows| - 1]
    ensures rows[|rows| - 1][key] != c ==> IsLastWith(rows[..|rows| - 1], key, c, r)
  {
    var n := |rows| - 1;
    var i :| 0 <= i < |rows| && rows[i] == r && r[key] == c && forall j :: i < j < |rows| ==> rows[j][key] != c;
    if i < n {
      assert rows[..n][i] == r && forall j :: i < j < n ==> rows[..n][j] == rows[j];
    }
  }

  /** What an assignment stands for, by the Role and Location rows: a missing role is an error; without a branch code it is the role for
      the whole company; with one it is the role at the location of that code, nothing while there are no locations at all, and an error
      when there are some but not that one. */
  lemma TargetMeans(a: Assignment, roles: seq<Row>, locations: seq<Row>)
    requires forall i :: 0 <= i < |roles| ==> ROLE_CODE < |roles[i]|
    requires forall i :: 0 <= i < |locations| ==> LOCATION_CODE < |locations[i]|
    ensures var target := TargetOf(a, Lookup(roles, ROLE_CODE, ROLE_ID), Lookup(locations, LOCATION_CODE, LOCATION_ID));
            && (target.Err? <==> || (forall r :: r in roles ==> r[1] != Some(a.roleCode))
                                 || (a.branchCode.Some? && locations != [] && forall l :: l in locations ==> l[3] != a.branchCode))
            && (target == Ok(None) <==> a.branchCode.Some? && locations == [] && exists r :: r in roles && r[1] == Some(a.roleCode))
            && (forall r :: IsLastWith(roles, 1, Some(a.roleCode), r) && a.branchCode.None? ==>
                  target == Ok(Some([Some(a.userId), r[0], Some(Scalars("COMPANY")), None])))
            && (forall r, l :: IsLastWith(roles, 1, Some(a.roleCode), r) && a.branchCode.Some? && IsLastWith(locations, 3, a.branchCode, l) ==>
                  target == Ok(Some([Some(a.userId), r[0], Some(Scalars("LOCATION")), l[0]])))
  {
    LookupFindsTheLast(roles, ROLE_CODE, ROLE_ID, Some(a.roleCode));
    LookupFindsTheLast(locations, LOCATION_CODE, LOCATION_ID, a.branchCode);
    var ids := Lookup(locations, LOCATION_CODE, LOCATION_ID);
    if |locations| > 0 {
      LookupFindsTheLast(locations, LOCATION_CODE, LOCATION_ID, locations[0][LOCATION_CODE]);
      assert locations[0] in locations;
      assert |ids| > 0;
    } else {
      assert ids == map[];
    }
    hide Lookup, IsLastWith;
  }

  /** The contents of all canonical assignments, or none if one cannot be resolved. */
  function Expected(assignments: seq<Assignment>, roleIds: map<Cell, Cell>, locationIds: map<Cell, Cell>): Option<set<Row>> {
    if |assignments| == 0 then Some({})
    else
      var rest :- Expected(assignments[..|assignments| - 1], roleIds, locationIds);
      match TargetOf(assignments[|assignments| - 1], roleIds, locationIds)
      case Err(_) => None
      case Ok(None) => Some(rest)
      case Ok(Some(c)) => Some(rest + {c})
  }

  method ExpectedScopes(assignments: seq<Assignment>, roleIds: map<Cell, Cell>, locationIds: map<Cell, Cell>) returns (expected: Option<set<Row>>)
    ensures expected == Expected(assignments, roleIds, locationIds)
  {
    hide TargetOf;
    var found: set<Row> := {};
    var i := 0;
    while i < |assignments|
      invariant 0 <= i <= |assignments|
      invariant Expected(assignments[..i], roleIds, locationIds) == Some(found)
    {
      assert assignments[..i + 1][..i] == assignments[..i];
      var target := TargetOf(assignments[i], roleIds, locationIds);
      if target.Err? {
        Unresolved(assignments, roleIds, locationIds, i + 1);
        return None;
      }
      if target.value.Some? {
        found := found + {target.value.value};
      }
      i := i + 1;
    }
    assert assignments[..|assignments|] == assignments;
    expected := Some(found);
  }

  lemma {:induction false} Unresolved(assignments: seq<Assignment>, roleIds: map<Cell, Cell>, locationIds: map<Cell, Cell>, i: nat)
    requires i <= |assignments| && Expected(assignments[..i], roleIds, locationIds).None?
    ensures Expected(assignments, roleIds, locationIds).None?
    decreases |assignments| - i
  {
    if i < |assignments| {
      assert assignments[..i + 1][..i] == assignments[..i];
      Unresolved(assignments, roleIds, locationIds, i + 1);
    } else {
      assert assignments[..i] == assignments;
    }
  }

  /** Every scope row from before is still there; whatever is new has a fresh uuid v4; and the contents are exactly the expected
      ones, once each. */
  predicate ScopesAccepted(before: seq<Row>, after: seq<Row>, expected: set<Row>) {
    && Distinct(Ids(after))
    && (forall r :: r in before ==> r in after)
    && (forall r :: r in after && r !in before ==> IsNewId(IdOf(r)))
    && Distinct(Contents(after)) && ToSet(Contents(after)) == expected
  }

  function IsNew(before: seq<Row>): Row -> bool {
    (r: Row) => IdOf(r) !in Ids(before)
  }

  function Created(before: seq<Row>, after: seq<Row>): seq<Row> {
    Filter(IsNew(before), after)
  }

  lemma CreatedMembers(before: seq<Row>, after: seq<Row>)
    ensures forall r :: r in Created(before, after) <==> r in after && IdOf(r) !in Ids(before)
  {
    forall r ensures r in Created(before, after) <==> r in after && IsNew(before)(r) {
      FilterMembers(IsNew(before), after, r);
    }
  }

  lemma ContentsMembers(rows: seq<Row>)
    ensures forall r :: r in rows ==> Content(r) in Contents(rows)
    ensures forall c :: c in Contents(rows) ==> exists r :: r in rows && Content(r) == c
  {
    forall r | r in rows ensures Content(r) in Contents(rows) {
      var i :| 0 <= i < |rows| && rows[i] == r;
      assert Contents(rows)[i] == Content(r);
    }
    forall c | c in Contents(rows) ensures exists r :: r in rows && Content(r) == c {
      var i :| 0 <= i < |rows| && Contents(rows)[i] == c;
      assert rows[i] in rows;
    }
  }

  lemma IdsMembers(rows: seq<Row>)
    ensures forall r :: r in rows ==> IdOf(r) in Ids(rows)
    ensures forall c :: c in Ids(rows) ==> exists r :: r in rows && IdOf(r) == c
  {
    forall r | r in rows ensures IdOf(r) in Ids(rows) {
      var i :| 0 <= i < |rows| && rows[i] == r;
      assert Ids(rows)[i] == IdOf(r);
    }
    forall c | c in Ids(rows) ensures exists r :: r in rows && IdOf(r) == c {
      var i :| 0 <= i < |rows| && Ids(rows)[i] == c;
      assert rows[i] in rows;
    }
  }

  /** Under distinct ids and contents a row is known by either. */
  lemma OneRow(rows: seq<Row>, a: Row, b: Row)
    requires a in rows && b in rows
    requires (Distinct(Ids(rows)) && IdOf(a) == IdOf(b)) || (Distinct(Contents(rows)) && Content(a) == Content(b))
    ensures a == b
  {
    var i :| 0 <= i < |rows| && rows[i] == a;
    var j :| 0 <= j < |rows| && rows[j] == b;
    assert Ids(rows)[i] == IdOf(a) && Ids(rows)[j] == IdOf(b);
    assert Contents(rows)[i] == Content(a) && Contents(rows)[j] == Content(b);
  }

  lemma CreatedIsMissing(before: seq<Row>, after: seq<Row>, expected: set<Row>, r: Row)
    requires ScopesAccepted(before, after, expected) && r in Created(before, after)
    ensures r in after && r !in before && Content(r) in expected && Content(r) !in Contents(before)
  {
    CreatedMembers(before, after);
    IdsMembers(before);
    ContentsMembers(before);
    ContentsMembers(after);
    if Content(r) in Contents(before) {
      var b :| b in before && Content(b) == Content(r);
      OneRow(after, r, b);
      assert false;
    }
  }

  lemma MissingIsCreated(before: seq<Row>, after: seq<Row>, expected: set<Row>, c: Row)
    requires ScopesAccepted(before, after, expected) && c in expected && c !in Contents(before)
    ensures c in Contents(Created(before, after))
  {
    ContentsMembers(before);
    ContentsMembers(after);
    var r :| r in after && Content(r) == c;
    NewRowsAreCreated(before, after);
    ContentsMembers(Created(before, after));
  }

  /** In an accepted outcome the rows under new ids are the missing contents, once each. */
  lemma AcceptedCreates(before: seq<Row>, after: seq<Row>, expected: set<Row>)
    requires ScopesAccepted(before, after, expected)
    ensures multiset(Contents(Created(before, after))) == multiset(expected - ToSet(Contents(before)))
    ensures forall r :: r in Created(before, after) ==> IsNewId(IdOf(r))
    ensures Distinct(Ids(Created(before, after)))
  {
    var created := Created(before, after);
    FilterKeepsDistinct(IdOf, IsNew(before), after);
    FilterKeepsDistinct(Content, IsNew(before), after);
    hide Created, Filter, IsNewId;
    DistinctAsSet(Contents(created));
    forall r | r in created ensures IsNewId(IdOf(r)) && Content(r) in expected - ToSet(Contents(before)) {
      CreatedIsMissing(before, after, expected, r);
    }
    forall c | c in expected - ToSet(Contents(before)) ensures c in Contents(created) {
      MissingIsCreated(before, after, expected, c);
    }
    ContentsMembers(created);
    assert ToSet(Contents(created)) == expected - ToSet(Contents(before));
  }

  method PreservedScopes(before: seq<Row>, after: seq<Row>) returns (ok: bool)
    requires Shaped(before, SCOPE_ARITY) && Shaped(after, SCOPE_ARITY)
    requires Distinct(ValuesOf(after, SCOPE_ID))
    ensures ok <==> forall r :: r in before ==> r in after
  {
    hide Index;
    var afterById := Index(after, SCOPE_ID);
    IndexFinds(after, SCOPE_ID);
    IndexKeys(after, SCOPE_ID);
    var i := 0;
    while i < |before|
      invariant 0 <= i <= |before|
      invariant forall k :: 0 <= k < i ==> before[k] in after
    {
      if before[i][SCOPE_ID] !in afterById || afterById[before[i][SCOPE_ID]] != before[i] {
        assert before[i] !in after;
        return false;
      }
      i := i + 1;
    }
    ok := true;
  }

  predicate ScopesAcceptedFor(before: seq<Row>, after: seq<Row>, expected: Option<set<Row>>) {
    expected.Some? && ScopesAccepted(before, after, expected.value)
  }

  /** Exactly the missing contents are created, as a multiset, under uuid v4 ids; and the final contents are the expected ones. */
  method VerifyCreated(before: seq<Row>, after: seq<Row>, expected: set<Row>) returns (violation: Option<Rule>)
    requires Distinct(Ids(after)) && forall r :: r in before ==> r in after
    ensures violation.None? <==> ScopesAccepted(before, after, expected)
    ensures violation.Some? ==> ClauseOf(violation.value) == 4
  {
    hide IsNewId, Filter, Created;
    violation := None;
    var created := Created(before, after);
    var missing := expected - ToSet(Contents(before));
    ghost var accepted := ScopesAccepted(before, after, expected);
    if accepted {
      AcceptedCreates(before, after, expected);
    }
    SetSize(Ids(created));
    SetSize(Contents(after));
    if multiset(Contents(created)) != multiset(missing) || (exists r :: r in created && !IsNewId(IdOf(r))) || |ToSet(Ids(created))| != |created| {
      return Some(ScopeCreated);
    }
    if |ToSet(Contents(after))| != |after| || |after| != |expected| || !(ToSet(Contents(after)) <= expected) {
      return Some(ScopeSet);
    }
    SubsetSize(ToSet(Contents(after)), expected);
    NewRowsAreCreated(before, after);
  }

  /** The checks in the source's order: ids, preserved rows, the resolved assignments, created rows, final contents. */
  method VerifyScopes(before: seq<Row>, after: seq<Row>, assignments: seq<Assignment>, roleIds: map<Cell, Cell>, locationIds: map<Cell, Cell>)
    returns (violation: Option<Rule>)
    requires Shaped(before, SCOPE_ARITY) && Shaped(after, SCOPE_ARITY)
    ensures violation.None? <==> ScopesAcceptedFor(before, after, Expected(assignments, roleIds, locationIds))
    ensures violation.Some? ==> ClauseOf(violation.value) == 4
  {
    hide Expected, Contents, Index, IsNewId;
    IndexFinds(after, SCOPE_ID);
    assert Ids(after) == ValuesOf(after, SCOPE_ID);
    if |Index(after, SCOPE_ID)| != |after| {
      return Some(ScopeSet);
    }
    var preserved := PreservedScopes(before, after);
    if !preserved {
      return Some(ScopePreserved);
    }
    var resolved := ExpectedScopes(assignments, roleIds, locationIds);
    if resolved.None? {
      return Some(ScopeSet);
    }
    violation := VerifyCreated(before, after, resolved.value);
  }

  lemma NewRowsAreCreated(before: seq<Row>, after: seq<Row>)
    requires Distinct(Ids(after)) && forall r :: r in before ==> r in after
    ensures forall r :: r in after && r !in before ==> r in Created(before, after)
  {
    CreatedMembers(before, after);
    IdsMembers(before);
    forall r | r in after && r !in before ensures r in Created(before, after) {
      if IdOf(r) in Ids(before) {
        var b :| b in before && IdOf(b) == IdOf(r);
        OneRow(after, r, b);
        assert false;
      }
    }
  }

  // ---- the whole relation --------------------------------------------------------------------------------------

  const SPECIAL: set<string> := {PERMISSION_TABLE, USER_TABLE, SCOPE_TABLE}

  /** The tables the rules read have their contract's arity. */
  predicate WellShaped(rows: Rows) {
    && (USER_TABLE in rows ==> Shaped(rows[USER_TABLE], USER_ARITY))
    && (SCOPE_TABLE in rows ==> Shaped(rows[SCOPE_TABLE], SCOPE_ARITY))
    && (ROLE_TABLE in rows ==> forall i :: 0 <= i < |rows[ROLE_TABLE]| ==> ROLE_CODE < |rows[ROLE_TABLE][i]|)
    && (LOCATION_TABLE in rows ==> forall i :: 0 <= i < |rows[LOCATION_TABLE]| ==> LOCATION_CODE < |rows[LOCATION_TABLE][i]|)
  }

  predicate Covers(relations: seq<string>) {
    Distinct(relations) && PERMISSION_TABLE in relations && USER_TABLE in relations && SCOPE_TABLE in relations && ROLE_TABLE in relations
    && LOCATION_TABLE in relations
  }

  function ExpectedAfter(post: Rows, seed: Seed): Option<set<Row>>
    requires WellShaped(post) && ROLE_TABLE in post && LOCATION_TABLE in post
  {
    Expected(seed.assignments, Lookup(post[ROLE_TABLE], ROLE_CODE, ROLE_ID), Lookup(post[LOCATION_TABLE], LOCATION_CODE, LOCATION_ID))
  }

  /** The clauses of the relation in the order they are checked; each presupposes the ones before. */
  predicate Clauses(n: nat, pre: Rows, post: Rows, relations: seq<string>, seed: Seed, password: Cell -> PasswordState)
    requires Covers(relations) && WellShaped(pre) && WellShaped(post)
  {
    && (n > 0 ==> pre.Keys == ToSet(relations) && post.Keys == ToSet(relations))
    && (n > 1 ==> forall r :: r in relations && r !in SPECIAL ==> pre[r] == post[r])
    && (n > 2 ==> ToSet(pre[PERMISSION_TABLE]) == ToSet(post[PERMISSION_TABLE]))
    && (n > 3 ==> UsersPass(pre[USER_TABLE], post[USER_TABLE], seed, password))
    && (n > 4 ==> ScopesAcceptedFor(pre[SCOPE_TABLE], post[SCOPE_TABLE], ExpectedAfter(post, seed)))
  }

  /** Every clause the source checks holds. */
  predicate Passes(pre: Rows, post: Rows, relations: seq<string>, seed: Seed, password: Cell -> PasswordState)
    requires Covers(relations) && WellShaped(pre) && WellShaped(post)
  {
    Clauses(5, pre, post, relations, seed, password)
  }

  /** What the seed may do: every ordinary table is kept row for row, role permissions as a set, users by their class, and scopes end as
      the canonical assignments with everything from before preserved. */
  predicate Transformed(pre: Rows, post: Rows, relations: seq<string>, seed: Seed, password: Cell -> PasswordState)
    requires Covers(relations) && WellShaped(pre) && WellShaped(post)
  {
    && pre.Keys == ToSet(relations) && post.Keys == ToSet(relations)
    && (forall r :: r in relations && r !in SPECIAL ==> pre[r] == post[r])
    && ToSet(pre[PERMISSION_TABLE]) == ToSet(post[PERMISSION_TABLE])
    && UsersAccepted(pre[USER_TABLE], post[USER_TABLE], seed, password)
    && ScopesAcceptedFor(pre[SCOPE_TABLE], post[SCOPE_TABLE], ExpectedAfter(post, seed))
  }

  /** What a seed may touch, table by table: no table appears or disappears, and only the rows of three can differ. Permissions keep their
      set, every scope from before is still there and each new one has a new id, and a user that differs is a seed user with another hash. */
  lemma OnlyThreeTablesChange(pre: Rows, post: Rows, relations: seq<string>, seed: Seed, password: Cell -> PasswordState)
    requires Covers(relations) && WellShaped(pre) && WellShaped(post) && Transformed(pre, post, relations, seed, password)
    ensures pre.Keys == post.Keys
    ensures forall t :: t in pre && t != "RolePermission" && t != "User" && t != "UserRoleScope" ==> post[t] == pre[t]
    ensures "RolePermission" in pre && forall r :: r in post["RolePermission"] <==> r in pre["RolePermission"]
    ensures "UserRoleScope" in pre && forall r :: r in pre["UserRoleScope"] ==> r in post["UserRoleScope"]
    ensures forall r :: r in post["UserRoleScope"] && r !in pre["UserRoleScope"] ==> IsNewId(IdOf(r))
    ensures "User" in pre && forall a :: a in post["User"] && a !in pre["User"] ==>
              exists b, email :: b in pre["User"] && b[0] == a[0] && b[2] == Some(email) && email in seed.userEmails && email != seed.ownerEmail
                && (forall k :: 0 <= k < 9 && k != 3 ==> a[k] == b[k]) && password(a[3]) == DefaultPassword
  {
    hide UsersAccepted, ExpectedAfter, IsNewId, UserRule;
    forall a | a in post[USER_TABLE] && a !in pre[USER_TABLE]
      ensures exists b, email :: b in pre["User"] && b[0] == a[0] && b[2] == Some(email) && email in seed.userEmails && email != seed.ownerEmail
                && (forall k :: 0 <= k < 9 && k != 3 ==> a[k] == b[k]) && password(a[3]) == DefaultPassword
    {
      OnlySeedUsersChange(pre[USER_TABLE], post[USER_TABLE], seed, password, a);
    }
    assert forall r :: r in pre[PERMISSION_TABLE] <==> r in ToSet(pre[PERMISSION_TABLE]);
    assert forall r :: r in post[PERMISSION_TABLE] <==> r in ToSet(post[PERMISSION_TABLE]);
  }

  /** The verifier passes what the relation allows, and nothing else unless a user id occurs twice in the pre-image. */
  lemma PassingIsTheRelation(pre: Rows, post: Rows, relations: seq<string>, seed: Seed, password: Cell -> PasswordState)
    requires Covers(relations) && WellShaped(pre) && WellShaped(post)
    ensures Transformed(pre, post, relations, seed, password) <==>
            Passes(pre, post, relations, seed, password) && Distinct(ValuesOf(pre[USER_TABLE], USER_ID))
  {
    hide UsersPass, UsersAccepted, ScopesAcceptedFor, ExpectedAfter, ValuesOf;
    if pre.Keys == ToSet(relations) && post.Keys == ToSet(relations) {
      PassingIsAcceptance(pre[USER_TABLE], post[USER_TABLE], seed, password);
    }
  }

  method SameRelations(pre: Rows, post: Rows, relations: seq<string>) returns (ok: bool)
    requires Distinct(relations)
    ensures ok <==> pre.Keys == ToSet(relations) && post.Keys == ToSet(relations)
  {
    SetSize(relations);
    if |pre| != |relations| || |post| != |relations| {
      return false;
    }
    var i := 0;
    while i < |relations|
      invariant 0 <= i <= |relations|
      invariant forall k :: 0 <= k < i ==> relations[k] in pre && relations[k] in post
    {
      if relations[i] !in pre || relations[i] !in post {
        assert relations[i] in ToSet(relations);
        return false;
      }
      i := i + 1;
    }
    assert ToSet(relations) <= pre.Keys && ToSet(relations) <= post.Keys;
    SubsetSize(ToSet(relations), pre.Keys);
    SubsetSize(ToSet(relations), post.Keys);
    ok := true;
  }

  method OrdinaryTablesKept(pre: Rows, post: Rows, relations: seq<string>) returns (ok: bool)
    requires pre.Keys == ToSet(relations) && post.Keys == ToSet(relations)
    ensures ok <==> forall r :: r in relations && r !in SPECIAL ==> pre[r] == post[r]
  {
    var i := 0;
    while i < |relations|
      invariant 0 <= i <= |relations|
      invariant forall k :: 0 <= k < i && relations[k] !in SPECIAL ==> pre[relations[k]] == post[relations[k]]
    {
      if relations[i] !in SPECIAL && pre[relations[i]] != post[relations[i]] {
        return false;
      }
      i := i + 1;
    }
    ok := true;
  }

  /** Returns normally exactly when every clause holds; a violation names the first one that fails. */
  method VerifyTransformation(pre: Rows, post: Rows, relations: seq<string>, seed: Seed, password: Cell -> PasswordState)
    returns (violation: Option<Rule>)
    requires Covers(relations) && WellShaped(pre) && WellShaped(post)
    ensures violation.None? <==> Passes(pre, post, relations, seed, password)
    ensures violation.Some? ==> var n := ClauseOf(violation.value);
      Clauses(n, pre, post, relations, seed, password) && !Clauses(n + 1, pre, post, relations, seed, password)
  {
    hide UsersPass, ScopesAcceptedFor, Distinct, ValuesOf, ExpectedAfter, Lookup;
    var ok := SameRelations(pre, post, relations);
    if !ok {
      return Some(RelationSet);
    }
    ok := OrdinaryTablesKept(pre, post, relations);
    if !ok {
      return Some(RelationChanged);
    }
    var before, after := ToSet(pre[PERMISSION_TABLE]), ToSet(post[PERMISSION_TABLE]);
    if |before| != |after| || exists k :: k in before && k !in after {
      return Some(RolePermissionSet);
    }
    SubsetSize(before, after);
    violation := VerifyUsers(pre[USER_TABLE], post[USER_TABLE], seed, password);
    if violation.Some? {
      return;
    }
    ExpectedIs(post, seed);
    violation := VerifyScopes(pre[SCOPE_TABLE], post[SCOPE_TABLE], seed.assignments,
                              Lookup(post[ROLE_TABLE], ROLE_CODE, ROLE_ID), Lookup(post[LOCATION_TABLE], LOCATION_CODE, LOCATION_ID));
  }

  lemma ExpectedIs(post: Rows, seed: Seed)
    requires WellShaped(post) && ROLE_TABLE in post && LOCATION_TABLE in post
    ensures ExpectedAfter(post, seed)
         == Expected(seed.assignments, Lookup(post[ROLE_TABLE], ROLE_CODE, ROLE_ID), Lookup(post[LOCATION_TABLE], LOCATION_CODE, LOCATION_ID))
  {
  }
}
