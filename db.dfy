/** The storefront's database access layer: the lazily opened connection,
    the user upsert keyed on `openId`, and the read helpers over the
    catalogue, orders and statistics tables.

    Tables are sequences of rows. Whether a connection exists is the flag
    `dbUp`; every reader answers with an empty list, `None` or 0 without
    one. */
module Db {
  import opened Common
  import opened Schema
  import Env

  // ----------------------------------------------------------------------
  // Connection

  /** The module-level connection handle: once opened it is kept. */
  class Connection {
    var open: bool

    constructor ()
      ensures !open
    {
      open := false;
    }

    /** Opens the connection when none exists and a database URL is set;
        `connectOk` is whether the driver constructor succeeds (a failure is
        logged and leaves no connection). */
    method GetDb(databaseUrl: string, connectOk: bool) returns (up: bool)
      modifies this
      ensures old(open) ==> open
      ensures !old(open) ==> open == (databaseUrl != "" && connectOk)
      ensures up == open
    {
      if !open && databaseUrl != "" {
        open := connectOk;
      }
      up := open;
    }
  }

  // ----------------------------------------------------------------------
  // User upsert: the two records

  /** The argument of `upsertUser`: every property may be absent, and the
      nullable text columns may also be `null` (`Defined(None)`). */
  datatype InsertUser = InsertUser(
    openId: Field<string>,
    name: Field<Option<string>>,
    email: Field<Option<string>>,
    loginMethod: Field<Option<string>>,
    lastSignedIn: Field<Timestamp>,
    role: Field<Role>)

  /** The column values of an insert record or of an update set; an
      `Undefined` column is not part of the record. */
  datatype UserFields = UserFields(
    name: Field<Option<string>>,
    email: Field<Option<string>>,
    loginMethod: Field<Option<string>>,
    lastSignedIn: Field<Timestamp>,
    role: Field<Role>)
  {
    predicate IsEmpty() {
      name.Undefined? && email.Undefined? && loginMethod.Undefined?
      && lastSignedIn.Undefined? && role.Undefined?
    }
  }

  const NoFields := UserFields(Undefined, Undefined, Undefined, Undefined, Undefined)

  /** The nullable text columns, visited in this order. */
  datatype TextField = NameField | EmailField | LoginMethodField

  const TextFields: seq<TextField> := [NameField, EmailField, LoginMethodField]

  function TextOf(user: InsertUser, f: TextField): Field<Option<string>> {
    match f
    case NameField => user.name
    case EmailField => user.email
    case LoginMethodField => user.loginMethod
  }

  function TextIn(r: UserFields, f: TextField): Field<Option<string>> {
    match f
    case NameField => r.name
    case EmailField => r.email
    case LoginMethodField => r.loginMethod
  }

  function WithText(r: UserFields, f: TextField, v: Option<string>): (r': UserFields)
    ensures TextIn(r', f) == Defined(v)
    ensures forall g :: g != f ==> TextIn(r', g) == TextIn(r, g)
    ensures r'.lastSignedIn == r.lastSignedIn && r'.role == r.role
  {
    match f
    case NameField => r.(name := Defined(v))
    case EmailField => r.(email := Defined(v))
    case LoginMethodField => r.(loginMethod := Defined(v))
  }

  predicate HasOpenId(user: InsertUser) {
    user.openId.Defined? && user.openId.value != ""
  }

  const OpenIdRequired := "User openId is required for upsert"

  /** The role both records carry: an explicit role, else `admin` for the
      owner's identity, else none (the column default applies on insert and
      an existing row keeps its role). */
  function RoleToWrite(user: InsertUser, ownerOpenId: string): Field<Role> {
    if user.role.Defined? then user.role
    else if user.openId == Defined(ownerOpenId) then Defined(AdminRole)
    else Undefined
  }

  /** The record handed to the insert. */
  function InsertValues(user: InsertUser, ownerOpenId: string, now: Timestamp): UserFields {
    UserFields(user.name, user.email, user.loginMethod,
               Defined(if user.lastSignedIn.Defined? then user.lastSignedIn.value else now),
               RoleToWrite(user, ownerOpenId))
  }

  /** The record applied when a row with the same `openId` already exists. */
  function UpdateSet(user: InsertUser, ownerOpenId: string, now: Timestamp): UserFields {
    var u := UserFields(user.name, user.email, user.loginMethod, user.lastSignedIn,
                        RoleToWrite(user, ownerOpenId));
    if u.IsEmpty() then u.(lastSignedIn := Defined(now)) else u
  }

  /** Fills the two records column by column, as `upsertUser` does before
      it writes. */
  method BuildUpsertRecords(user: InsertUser, ownerOpenId: string, now: Timestamp)
    returns (values: UserFields, updateSet: UserFields)
    ensures values == InsertValues(user, ownerOpenId, now)
    ensures updateSet == UpdateSet(user, ownerOpenId, now)
  {
    values, updateSet := NoFields, NoFields;
    for k := 0 to |TextFields|
      invariant forall i :: 0 <= i < k ==> TextIn(values, TextFields[i]) == TextOf(user, TextFields[i])
      invariant forall i :: 0 <= i < k ==> TextIn(updateSet, TextFields[i]) == TextOf(user, TextFields[i])
      invariant forall i :: k <= i < |TextFields| ==> TextIn(values, TextFields[i]).Undefined?
      invariant forall i :: k <= i < |TextFields| ==> TextIn(updateSet, TextFields[i]).Undefined?
      invariant values.lastSignedIn.Undefined? && values.role.Undefined?
      invariant updateSet.lastSignedIn.Undefined? && updateSet.role.Undefined?
    {
      var f := TextFields[k];
      var v := TextOf(user, f);
      if v.Defined? {
        // `value ?? null`: a present value, string or null, is kept as it is
        values := WithText(values, f, v.value);
        updateSet := WithText(updateSet, f, v.value);
      }
    }
    assert TextFields[0] == NameField && TextFields[1] == EmailField && TextFields[2] == LoginMethodField;
    if user.lastSignedIn.Defined? {
      values := values.(lastSignedIn := user.lastSignedIn);
      updateSet := updateSet.(lastSignedIn := user.lastSignedIn);
    }
    if user.role.Defined? {
      values := values.(role := user.role);
      updateSet := updateSet.(role := user.role);
    } else if user.openId == Defined(ownerOpenId) {
      values := values.(role := Defined(AdminRole));
      updateSet := updateSet.(role := Defined(AdminRole));
    }
    if values.lastSignedIn.Undefined? {
      values := values.(lastSignedIn := Defined(now));
    }
    if updateSet.IsEmpty() {
      updateSet := updateSet.(lastSignedIn := Defined(now));
    }
  }

  /** A text column absent from the argument is absent from both records;
      a present one, `null` included, goes into both unchanged. */
  lemma TextFieldsCopied(user: InsertUser, ownerOpenId: string, now: Timestamp, f: TextField)
    ensures TextOf(user, f).Undefined? ==> TextIn(InsertValues(user, ownerOpenId, now), f).Undefined?
    ensures TextOf(user, f).Undefined? ==> TextIn(UpdateSet(user, ownerOpenId, now), f).Undefined?
    ensures TextOf(user, f).Defined? ==> TextIn(InsertValues(user, ownerOpenId, now), f) == TextOf(user, f)
    ensures TextOf(user, f).Defined? ==> TextIn(UpdateSet(user, ownerOpenId, now), f) == TextOf(user, f)
  {
  }

  /** An explicit role always wins; otherwise the owner becomes admin;
      otherwise neither record names a role. */
  lemma RoleResolution(user: InsertUser, ownerOpenId: string, now: Timestamp)
    ensures user.role.Defined? ==>
              InsertValues(user, ownerOpenId, now).role == user.role
              && UpdateSet(user, ownerOpenId, now).role == user.role
    ensures user.role.Undefined? && user.openId == Defined(ownerOpenId) ==>
              InsertValues(user, ownerOpenId, now).role == Defined(AdminRole)
              && UpdateSet(user, ownerOpenId, now).role == Defined(AdminRole)
    ensures user.role.Undefined? && user.openId != Defined(ownerOpenId) ==>
              InsertValues(user, ownerOpenId, now).role.Undefined?
              && UpdateSet(user, ownerOpenId, now).role.Undefined?
  {
  }

  /** The insert always carries `lastSignedIn`, and the update set is never
      empty: with nothing else to write it refreshes `lastSignedIn`. */
  lemma LastSignedInFallback(user: InsertUser, ownerOpenId: string, now: Timestamp)
    ensures InsertValues(user, ownerOpenId, now).lastSignedIn.Defined?
    ensures user.lastSignedIn.Defined? ==>
              InsertValues(user, ownerOpenId, now).lastSignedIn == user.lastSignedIn
              && UpdateSet(user, ownerOpenId, now).lastSignedIn == user.lastSignedIn
    ensures !UpdateSet(user, ownerOpenId, now).IsEmpty()
  {
  }

  /** With the default empty owner identity, no accepted upsert is elevated:
      an accepted `openId` is never empty, so it never equals the owner's. */
  lemma EmptyOwnerNeverElevates(env: map<string, string>, user: InsertUser)
    requires "OWNER_OPEN_ID" !in env
    requires HasOpenId(user)
    ensures RoleToWrite(user, Env.FromEnvironment(env).ownerOpenId) == user.role
  {
  }

  // ----------------------------------------------------------------------
  // User upsert: the write

  /** Position of the row holding `openId`, or `|rows|` when there is none. */
  function IndexOfOpenId(rows: seq<User>, openId: string): (k: nat)
    ensures k <= |rows|
    ensures k < |rows| ==> rows[k].openId == openId
    ensures forall j :: 0 <= j < k ==> rows[j].openId != openId
  {
    if rows == [] then 0
    else if rows[0].openId == openId then 0
    else 1 + IndexOfOpenId(rows[1..], openId)
  }

  /** A column of the record if present, else the current value. */
  function Assign<T>(f: Field<T>, current: T): T {
    if f.Defined? then f.value else current
  }

  /** An existing row after the update set is applied. */
  function Patched(u: User, patch: UserFields): User {
    User(u.id, u.openId, Assign(patch.name, u.name), Assign(patch.email, u.email),
         Assign(patch.loginMethod, u.loginMethod), Assign(patch.role, u.role),
         Assign(patch.lastSignedIn, u.lastSignedIn))
  }

  /** The row an insert stores: absent nullable columns are null, an absent
      role is the column default, an absent `lastSignedIn` is the clock. */
  function NewRow(id: nat, openId: string, values: UserFields, now: Timestamp): User {
    User(id, openId, Assign(values.name, None), Assign(values.email, None),
         Assign(values.loginMethod, None), Assign(values.role, DefaultRole),
         Assign(values.lastSignedIn, now))
  }

  /** Insert-or-update keyed on the unique `openId`: rows holding another
      openId are left as they are, and the counter advances exactly when a
      row is added. */
  function UpsertRows(rows: seq<User>, nextId: nat, openId: string, values: UserFields,
                      updateSet: UserFields, now: Timestamp): (r: (seq<User>, nat))
    ensures |r.0| == |rows| || |r.0| == |rows| + 1
    ensures r.1 == nextId + (|r.0| - |rows|)
    ensures forall j :: 0 <= j < |rows| && rows[j].openId != openId ==> r.0[j] == rows[j]
    ensures |r.0| == |rows| + 1 <==> forall j :: 0 <= j < |rows| ==> rows[j].openId != openId
  {
    var k := IndexOfOpenId(rows, openId);
    if k < |rows| then (rows[k := Patched(rows[k], updateSet)], nextId)
    else (rows + [NewRow(nextId, openId, values, now)], nextId + 1)
  }

  /** The unique keys survive an upsert. */
  lemma UpsertKeepsWellFormed(rows: seq<User>, nextId: nat, openId: string, values: UserFields,
                              updateSet: UserFields, now: Timestamp)
    requires UsersWellFormed(rows, nextId)
    ensures var (rows', nextId') := UpsertRows(rows, nextId, openId, values, updateSet, now);
      UsersWellFormed(rows', nextId') && nextId <= nextId'
  {
    var k := IndexOfOpenId(rows, openId);
    if k == |rows| {
      var rows' := rows + [NewRow(nextId, openId, values, now)];
      forall i, j | 0 <= i < j < |rows'| ensures rows'[i].openId != rows'[j].openId {
        if j == |rows| {
          assert rows'[i] == rows[i];
        }
      }
    }
  }

  /** After an upsert exactly one row holds `openId`. */
  lemma UpsertLeavesOneRow(rows: seq<User>, nextId: nat, openId: string, values: UserFields,
                           updateSet: UserFields, now: Timestamp)
    requires UsersWellFormed(rows, nextId)
    ensures var rows' := UpsertRows(rows, nextId, openId, values, updateSet, now).0;
      exists k :: (0 <= k < |rows'| && rows'[k].openId == openId
                   && forall j :: 0 <= j < |rows'| && j != k ==> rows'[j].openId != openId)
  {
    var k := IndexOfOpenId(rows, openId);
    var rows' := UpsertRows(rows, nextId, openId, values, updateSet, now).0;
    UpsertKeepsWellFormed(rows, nextId, openId, values, updateSet, now);
    if k < |rows| {
      assert rows'[k].openId == openId;
      forall j | 0 <= j < |rows'| && j != k ensures rows'[j].openId != openId {
        if j < k { } else { assert rows[k].openId != rows[j].openId; }
      }
    } else {
      assert rows'[|rows|].openId == openId;
    }
  }

  /** For an existing row only the columns of the update set change; its
      key, its id and every other row stay as they were. */
  lemma UpsertExistingRow(rows: seq<User>, nextId: nat, openId: string, values: UserFields,
                          updateSet: UserFields, now: Timestamp, k: nat)
    requires k < |rows| && rows[k].openId == openId
    requires UsersWellFormed(rows, nextId)
    ensures var (rows', nextId') := UpsertRows(rows, nextId, openId, values, updateSet, now);
      && |rows'| == |rows| && nextId' == nextId
      && (forall j :: 0 <= j < |rows| && j != k ==> rows'[j] == rows[j])
      && rows'[k].id == rows[k].id && rows'[k].openId == openId
      && (updateSet.name.Undefined? ==> rows'[k].name == rows[k].name)
      && (updateSet.name.Defined? ==> rows'[k].name == updateSet.name.value)
      && (updateSet.email.Undefined? ==> rows'[k].email == rows[k].email)
      && (updateSet.email.Defined? ==> rows'[k].email == updateSet.email.value)
      && (updateSet.loginMethod.Undefined? ==> rows'[k].loginMethod == rows[k].loginMethod)
      && (updateSet.loginMethod.Defined? ==> rows'[k].loginMethod == updateSet.loginMethod.value)
      && (updateSet.role.Undefined? ==> rows'[k].role == rows[k].role)
      && (updateSet.role.Defined? ==> rows'[k].role == updateSet.role.value)
      && (updateSet.lastSignedIn.Undefined? ==> rows'[k].lastSignedIn == rows[k].lastSignedIn)
      && (updateSet.lastSignedIn.Defined? ==> rows'[k].lastSignedIn == updateSet.lastSignedIn.value)
  {
  }

  /** Without a row for `openId`, the insert appends one under the next id,
      with `user` as the default role unless the insert names one. */
  lemma UpsertNewRow(rows: seq<User>, nextId: nat, openId: string, values: UserFields,
                     updateSet: UserFields, now: Timestamp)
    requires forall j :: 0 <= j < |rows| ==> rows[j].openId != openId
    ensures var (rows', nextId') := UpsertRows(rows, nextId, openId, values, updateSet, now);
      && rows'[..|rows|] == rows && |rows'| == |rows| + 1 && nextId' == nextId + 1
      && rows'[|rows|].id == nextId && rows'[|rows|].openId == openId
      && rows'[|rows|].role == (if values.role.Defined? then values.role.value else UserRole)
      && (values.lastSignedIn.Defined? ==> rows'[|rows|].lastSignedIn == values.lastSignedIn.value)
  {
    var rows' := UpsertRows(rows, nextId, openId, values, updateSet, now).0;
    assert rows'[..|rows|] == rows;
  }

  /** The users table. */
  class UserTable {
    var rows: seq<User>
    var nextId: nat

    ghost predicate Valid()
      reads this
    {
      UsersWellFormed(rows, nextId)
    }

    constructor ()
      ensures Valid() && rows == [] && nextId == 1
    {
      rows := [];
      nextId := 1;
    }

    /** `upsertUser`: rejects an argument without an `openId`, writes nothing
        without a connection, and otherwise inserts or updates the row
        holding that `openId`. */
    method Upsert(user: InsertUser, dbUp: bool, ownerOpenId: string, now: Timestamp)
      returns (r: Result<(), string>)
      requires Valid()
      modifies this
      ensures Valid()
      ensures !HasOpenId(user) ==> r == Err(OpenIdRequired) && rows == old(rows) && nextId == old(nextId)
      ensures HasOpenId(user) && !dbUp ==> r == Ok(()) && rows == old(rows) && nextId == old(nextId)
      ensures HasOpenId(user) && dbUp ==>
        (r == Ok(()) && (rows, nextId) == UpsertRows(old(rows), old(nextId), user.openId.value,
                                                     InsertValues(user, ownerOpenId, now),
                                                     UpdateSet(user, ownerOpenId, now), now))
    {
      if !HasOpenId(user) {
        return Err(OpenIdRequired);
      }
      if !dbUp {
        return Ok(());
      }
      var values, updateSet := BuildUpsertRecords(user, ownerOpenId, now);
      var openId := user.openId.value;
      UpsertKeepsWellFormed(rows, nextId, openId, values, updateSet, now);
      var k := IndexOfOpenId(rows, openId);
      if k < |rows| {
        rows := rows[k := Patched(rows[k], updateSet)];
      } else {
        rows := rows + [NewRow(nextId, openId, values, now)];
        nextId := nextId + 1;
      }
      return Ok(());
    }
  }

  // ----------------------------------------------------------------------
  // Readers

  const AdminSessionOpenId := "admin-session"

  /** The stand-in administrator served when there is no connection. */
  function MockAdmin(now: Timestamp): User {
    User(0, AdminSessionOpenId, Some("Administrator"), Some("admin@axa-shop.local"), None, AdminRole, now)
  }

  /** `getUserByOpenId`. */
  function GetUserByOpenId(dbUp: bool, rows: seq<User>, openId: string, now: Timestamp): (r: Option<User>)
    ensures !dbUp ==> (r.Some? <==> openId == AdminSessionOpenId)
    ensures !dbUp && r.Some? ==> r.value.role == AdminRole && r.value.id == 0 && r.value.openId == openId
    ensures dbUp ==> (r.None? <==> forall j :: 0 <= j < |rows| ==> rows[j].openId != openId)
    ensures dbUp && r.Some? ==> r.value.openId == openId && r.value == rows[IndexOfOpenId(rows, openId)]
  {
    if !dbUp then
      (if openId == AdminSessionOpenId then Some(MockAdmin(now)) else None)
    else
      var r := Find(rows, (u: User) => u.openId == openId);
      assert r.Some? ==> r.value == rows[IndexOfOpenId(rows, openId)] by {
        if r.Some? {
          var i :| 0 <= i < |rows| && rows[i] == r.value && forall j :: 0 <= j < i ==> rows[j].openId != openId;
          assert i == IndexOfOpenId(rows, openId);
        }
      }
      r
  }

  /** `displayOrder` never decreases along `cs`. */
  predicate SortedByDisplayOrder(cs: seq<Column>) {
    forall i, j :: 0 <= i < j < |cs| ==> cs[i].displayOrder <= cs[j].displayOrder
  }

  function InsertByDisplayOrder(c: Column, sorted: seq<Column>): (r: seq<Column>)
    requires SortedByDisplayOrder(sorted)
    ensures SortedByDisplayOrder(r)
    ensures multiset(r) == multiset(sorted) + multiset{c}
    ensures |r| == |sorted| + 1 && (r[0] == c || (sorted != [] && r[0] == sorted[0]))
  {
    if sorted == [] || c.displayOrder <= sorted[0].displayOrder then
      [c] + sorted
    else
      var rest := InsertByDisplayOrder(c, sorted[1..]);
      assert sorted == [sorted[0]] + sorted[1..];
      [sorted[0]] + rest
  }

  function SortByDisplayOrder(cs: seq<Column>): (r: seq<Column>)
    ensures SortedByDisplayOrder(r)
    ensures multiset(r) == multiset(cs)
  {
    if cs == [] then []
    else
      assert cs == [cs[0]] + cs[1..];
      InsertByDisplayOrder(cs[0], SortByDisplayOrder(cs[1..]))
  }

  /** `getAllColumns`: every column, inactive ones included, ascending by
      `displayOrder`. */
  function GetAllColumns(dbUp: bool, cs: seq<Column>): (r: seq<Column>)
    ensures !dbUp ==> r == []
    ensures dbUp ==> SortedByDisplayOrder(r) && multiset(r) == multiset(cs)
  {
    if dbUp then SortByDisplayOrder(cs) else []
  }

  /** `getColumnById`. */
  function GetColumnById(dbUp: bool, cs: seq<Column>, id: int): (r: Option<Column>)
    ensures !dbUp ==> r.None?
    ensures dbUp ==> (r.None? <==> forall j :: 0 <= j < |cs| ==> cs[j].id != id)
    ensures r.Some? ==> r.value in cs && r.value.id == id
  {
    if dbUp then Find(cs, (c: Column) => c.id == id) else None
  }

  /** `getVisibleProducts`: exactly the visible rows, in table order. */
  function GetVisibleProducts(dbUp: bool, ps: seq<Product>): (r: seq<Product>)
    ensures !dbUp ==> r == []
    ensures dbUp ==> IsSubsequence(r, ps)
    ensures forall i :: 0 <= i < |r| ==> r[i].isVisible
    ensures dbUp ==> forall i :: 0 <= i < |ps| && ps[i].isVisible ==> ps[i] in r
    ensures dbUp ==> multiset(r) <= multiset(ps)
    ensures dbUp ==> forall i :: 0 <= i < |ps| && ps[i].isVisible ==> multiset(r)[ps[i]] == multiset(ps)[ps[i]]
  {
    if dbUp then
      FilterIsSubsequence(ps, (p: Product) => p.isVisible);
      Filter(ps, (p: Product) => p.isVisible)
    else []
  }

  /** `getProductsByColumnId`: the rows of one column, hidden ones included. */
  function GetProductsByColumnId(dbUp: bool, ps: seq<Product>, columnId: int): (r: seq<Product>)
    ensures !dbUp ==> r == []
    ensures dbUp ==> IsSubsequence(r, ps)
    ensures forall i :: 0 <= i < |r| ==> r[i].columnId == columnId
    ensures dbUp ==> forall i :: 0 <= i < |ps| && ps[i].columnId == columnId ==> ps[i] in r
    ensures dbUp ==> multiset(r) <= multiset(ps)
    ensures dbUp ==> forall i :: 0 <= i < |ps| && ps[i].columnId == columnId ==> multiset(r)[ps[i]] == multiset(ps)[ps[i]]
  {
    if dbUp then
      FilterIsSubsequence(ps, (p: Product) => p.columnId == columnId);
      Filter(ps, (p: Product) => p.columnId == columnId)
    else []
  }

  /** `getProductById`. */
  function GetProductById(dbUp: bool, ps: seq<Product>, id: int): (r: Option<Product>)
    ensures !dbUp ==> r.None?
    ensures dbUp ==> (r.None? <==> forall j :: 0 <= j < |ps| ==> ps[j].id != id)
    ensures r.Some? ==> r.value in ps && r.value.id == id
  {
    if dbUp then Find(ps, (p: Product) => p.id == id) else None
  }

  /** `getUserOrders`. */
  function GetUserOrders(dbUp: bool, os: seq<Order>, userId: int): (r: seq<Order>)
    ensures !dbUp ==> r == []
    ensures dbUp ==> IsSubsequence(r, os)
    ensures forall i :: 0 <= i < |r| ==> r[i].userId == userId
    ensures dbUp ==> forall i :: 0 <= i < |os| && os[i].userId == userId ==> os[i] in r
    ensures dbUp ==> multiset(r) <= multiset(os)
    ensures dbUp ==> forall i :: 0 <= i < |os| && os[i].userId == userId ==> multiset(r)[os[i]] == multiset(os)[os[i]]
  {
    if dbUp then
      FilterIsSubsequence(os, (o: Order) => o.userId == userId);
      Filter(os, (o: Order) => o.userId == userId)
    else []
  }

  /** `getOrderById`. */
  function GetOrderById(dbUp: bool, os: seq<Order>, id: int): (r: Option<Order>)
    ensures !dbUp ==> r.None?
    ensures dbUp ==> (r.None? <==> forall j :: 0 <= j < |os| ==> os[j].id != id)
    ensures r.Some? ==> r.value in os && r.value.id == id
  {
    if dbUp then Find(os, (o: Order) => o.id == id) else None
  }

  function SumAmounts(os: seq<Order>): Cents {
    if os == [] then 0 else os[0].amount + SumAmounts(os[1..])
  }

  predicate IsCompleted(o: Order) {
    o.status == Completed
  }

  /** `getTotalSales`: the sum of the completed orders' amounts. */
  function GetTotalSales(dbUp: bool, os: seq<Order>): (r: Cents)
    ensures !dbUp ==> r == 0
  {
    if dbUp then SumAmounts(Filter(os, IsCompleted)) else 0
  }

  /** Reference definition of the revenue: each order contributes its
      amount when it is completed and nothing otherwise. */
  function CompletedRevenue(os: seq<Order>): Cents {
    if os == [] then 0
    else (if os[0].status == Completed then os[0].amount else 0) + CompletedRevenue(os[1..])
  }

  lemma {:induction false} TotalSalesIsCompletedRevenue(os: seq<Order>)
    ensures GetTotalSales(true, os) == CompletedRevenue(os)
  {
    if os != [] {
      TotalSalesIsCompletedRevenue(os[1..]);
    }
  }

  lemma {:induction false} CompletedRevenueConcat(a: seq<Order>, b: seq<Order>)
    ensures CompletedRevenue(a + b) == CompletedRevenue(a) + CompletedRevenue(b)
  {
    if a == [] {
      assert a + b == b;
    } else {
      assert (a + b)[0] == a[0] && (a + b)[1..] == a[1..] + b;
      CompletedRevenueConcat(a[1..], b);
    }
  }

  /** Appending an order raises the total by its amount exactly when it is
      completed. */
  lemma TotalSalesOfAppend(os: seq<Order>, o: Order)
    ensures GetTotalSales(true, os + [o]) == GetTotalSales(true, os) + (if o.status == Completed then o.amount else 0)
  {
    TotalSalesIsCompletedRevenue(os + [o]);
    TotalSalesIsCompletedRevenue(os);
    CompletedRevenueConcat(os, [o]);
  }

  /** Changing one order's status moves the total by that order's amount:
      it leaves when the order stops being completed and joins when it
      becomes so. */
  lemma {:induction false} TotalSalesOfStatusChange(os: seq<Order>, k: nat, s: OrderStatus)
    requires k < |os|
    ensures CompletedRevenue(os[k := os[k].(status := s)])
         == CompletedRevenue(os)
            - (if os[k].status == Completed then os[k].amount else 0)
            + (if s == Completed then os[k].amount else 0)
  {
    if k > 0 {
      assert os[k := os[k].(status := s)][1..] == os[1..][k - 1 := os[k].(status := s)];
      TotalSalesOfStatusChange(os[1..], k - 1, s);
    } else {
      assert os[0 := os[0].(status := s)][1..] == os[1..];
    }
  }

  /** The statistics row with the greatest `createdAt`. */
  function Latest(stats: seq<Statistic>): (r: Statistic)
    requires stats != []
    ensures r in stats
    ensures forall i :: 0 <= i < |stats| ==> stats[i].createdAt <= r.createdAt
  {
    if |stats| == 1 then stats[0]
    else
      var rest := Latest(stats[1..]);
      if stats[0].createdAt >= rest.createdAt then stats[0] else rest
  }

  /** `getLatestStatistics`. */
  function GetLatestStatistics(dbUp: bool, stats: seq<Statistic>): (r: Option<Statistic>)
    ensures r.None? <==> !dbUp || stats == []
    ensures r.Some? ==> r.value in stats
    ensures r.Some? ==> forall i :: 0 <= i < |stats| ==> stats[i].createdAt <= r.value.createdAt
  {
    if dbUp && stats != [] then Some(Latest(stats)) else None
  }
}
