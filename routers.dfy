/** The application's procedures: the admin role gate, the current-user
    query, the password login that creates the `admin-session` user, the
    public catalogue queries and the admin catalogue writes.

    The principal is the optional user the session layer attaches to a
    request. A procedure's failure is a `Failure` carrying the error code the
    client sees and its message. */
module Routers {
  import opened Common
  import opened Schema
  import Env
  import Db

  datatype ErrorCode = Forbidden | Unauthorized | InternalServerError

  datatype Failure = Failure(code: ErrorCode, message: string)

  const AdminRequired := Failure(Forbidden, "Admin access required")
  const InvalidPassword := Failure(Unauthorized, "Invalid admin password")
  const DbUnavailable := Failure(InternalServerError, "Database not available")
  /** A statement the database refuses (a unique key or a column range);
      the driver's own message is not modelled. */
  const DbRefused := Failure(InternalServerError, "Database error")

  predicate IsAdmin(user: Option<User>) {
    user.Some? && user.value.role == AdminRole
  }

  /** `adminProcedure`: only an admin principal passes, and it passes on
      unchanged. */
  function AdminGate(user: Option<User>): (r: Result<User, Failure>)
    ensures r.Ok? <==> IsAdmin(user)
    ensures r.Ok? ==> r.value == user.value
    ensures r.Err? ==> r.error == AdminRequired
  {
    if user.Some? && user.value.role == AdminRole then Ok(user.value) else Err(AdminRequired)
  }

  /** `auth.me`: the principal as the session layer attached it, absent when
      unauthenticated. */
  function Me(user: Option<User>): (r: Option<User>)
    ensures r.None? <==> user.None?
    ensures r.Some? ==> r.value == user.value
  {
    user
  }

  // ----------------------------------------------------------------------
  // Admin login

  const AdminName := "Administrator"

  /** The record `adminLogin` upserts. */
  const AdminLoginUser := Db.InsertUser(Defined(Db.AdminSessionOpenId), Defined(Some(AdminName)),
                                        Undefined, Undefined, Undefined, Defined(AdminRole))

  /** `auth.adminLogin`: a wrong password is refused before anything is
      written; the right one upserts the `admin-session` user as an admin
      named "Administrator". */
  method AdminLogin(cfg: Env.Config, password: string, users: Db.UserTable, dbUp: bool, now: Timestamp)
    returns (r: Result<(), Failure>)
    requires users.Valid()
    modifies users
    ensures users.Valid()
    ensures password != cfg.adminPassword ==>
      r == Err(InvalidPassword) && users.rows == old(users.rows) && users.nextId == old(users.nextId)
    ensures password == cfg.adminPassword && !dbUp ==>
      r == Ok(()) && users.rows == old(users.rows) && users.nextId == old(users.nextId)
    ensures password == cfg.adminPassword && dbUp ==>
      r == Ok(()) && (users.rows, users.nextId) == AdminUpsert(old(users.rows), old(users.nextId), cfg.ownerOpenId, now)
  {
    if password != cfg.adminPassword {
      return Err(InvalidPassword);
    }
    var u := users.Upsert(AdminLoginUser, dbUp, cfg.ownerOpenId, now);
    return Ok(());
  }

  /** The users table after the login's upsert. */
  function AdminUpsert(rows: seq<User>, nextId: nat, ownerOpenId: string, now: Timestamp): (seq<User>, nat) {
    Db.UpsertRows(rows, nextId, Db.AdminSessionOpenId,
                  Db.InsertValues(AdminLoginUser, ownerOpenId, now),
                  Db.UpdateSet(AdminLoginUser, ownerOpenId, now), now)
  }

  /** After the login's upsert the `admin-session` user exists once, is an
      admin named "Administrator", and passes the admin gate. */
  lemma AdminLoginGrantsAdmin(rows: seq<User>, nextId: nat, ownerOpenId: string, now: Timestamp)
    requires UsersWellFormed(rows, nextId)
    ensures var rows' := AdminUpsert(rows, nextId, ownerOpenId, now).0;
      var found := Db.GetUserByOpenId(true, rows', Db.AdminSessionOpenId, now);
      && found.Some? && found.value.role == AdminRole && found.value.name == Some(AdminName)
      && AdminGate(found).Ok?
  {
    var values := Db.InsertValues(AdminLoginUser, ownerOpenId, now);
    var updateSet := Db.UpdateSet(AdminLoginUser, ownerOpenId, now);
    var rows' := AdminUpsert(rows, nextId, ownerOpenId, now).0;
    var k := Db.IndexOfOpenId(rows, Db.AdminSessionOpenId);
    if k < |rows| {
      Db.UpsertExistingRow(rows, nextId, Db.AdminSessionOpenId, values, updateSet, now, k);
      assert Db.IndexOfOpenId(rows', Db.AdminSessionOpenId) == k by {
        assert forall j :: 0 <= j < k ==> rows'[j] == rows[j];
      }
    } else {
      Db.UpsertNewRow(rows, nextId, Db.AdminSessionOpenId, values, updateSet, now);
      assert Db.IndexOfOpenId(rows', Db.AdminSessionOpenId) == |rows|;
    }
  }

  /** Without a database nothing is written, yet the `admin-session` lookup
      answers with the stand-in administrator, who passes the gate. */
  lemma AdminSessionWithoutDatabase(rows: seq<User>, now: Timestamp)
    ensures AdminGate(Db.GetUserByOpenId(false, rows, Db.AdminSessionOpenId, now)).Ok?
  {
  }

  // ----------------------------------------------------------------------
  // Public queries

  /** The public product list is the admin list filtered to its visible
      products: the same rows, in the same order, each as often. */
  lemma PublicListIsVisiblePartOfAdminList(user: Option<User>, dbUp: bool, ps: seq<Product>)
    requires IsAdmin(user)
    ensures var all := AdminTableList(user, dbUp, ps).value;
      var shown := Db.GetVisibleProducts(dbUp, ps);
      && (forall i :: 0 <= i < |shown| ==> shown[i] in all && shown[i].isVisible)
      && (forall i :: 0 <= i < |all| && all[i].isVisible ==> all[i] in shown)
      && shown == Filter(all, (p: Product) => p.isVisible)
  {
  }

  // ----------------------------------------------------------------------
  // Admin queries

  function AdminColumnsList(user: Option<User>, dbUp: bool, cs: seq<Column>): (r: Result<seq<Column>, Failure>)
    ensures !IsAdmin(user) ==> r == Err(AdminRequired)
    ensures IsAdmin(user) ==> r.Ok? && r.value == Db.GetAllColumns(dbUp, cs)
  {
    match AdminGate(user)
    case Err(e) => Err(e)
    case Ok(_) => Ok(Db.GetAllColumns(dbUp, cs))
  }

  /** `admin.products.list` and `admin.users.list`: every row of the table,
      hidden products included, or `[]` without a connection. */
  function AdminTableList<T>(user: Option<User>, dbUp: bool, rows: seq<T>): (r: Result<seq<T>, Failure>)
    ensures !IsAdmin(user) ==> r == Err(AdminRequired)
    ensures IsAdmin(user) && !dbUp ==> r == Ok([])
    ensures IsAdmin(user) && dbUp ==> r == Ok(rows)
  {
    match AdminGate(user)
    case Err(e) => Err(e)
    case Ok(_) => Ok(if dbUp then rows else [])
  }

  /** Two admin principals get the same answers from the admin queries; any
      other principal gets the same refusal. */
  lemma AdminQueriesDependOnlyOnRole(a: Option<User>, b: Option<User>, dbUp: bool,
                                     cs: seq<Column>, ps: seq<Product>, us: seq<User>)
    requires IsAdmin(a) == IsAdmin(b)
    ensures AdminColumnsList(a, dbUp, cs) == AdminColumnsList(b, dbUp, cs)
    ensures AdminTableList(a, dbUp, ps) == AdminTableList(b, dbUp, ps)
    ensures AdminTableList(a, dbUp, us) == AdminTableList(b, dbUp, us)
  {
  }

  // ----------------------------------------------------------------------
  // Admin writes

  /** The input of `admin.columns.create`; `isActive` is not accepted, so
      the column default applies. */
  datatype ColumnCreateInput = ColumnCreateInput(name: string, slug: string, icon: Option<string>,
                                                 displayOrder: Field<int>)

  function ColumnInsertOf(input: ColumnCreateInput): ColumnInsert {
    ColumnInsert(input.name, input.slug, input.icon, input.displayOrder, Undefined)
  }

  /** The input of `admin.columns.update`; an absent property is not set. */
  datatype ColumnUpdateInput = ColumnUpdateInput(id: int, name: Field<string>, displayOrder: Field<int>,
                                                 isActive: Field<bool>)

  /** The input of `admin.products.create`; `isVisible` is not accepted, so
      the column default applies. */
  datatype ProductCreateInput = ProductCreateInput(columnId: int, name: string, description: Option<string>,
                                                   image: Option<string>, price: Cents, stock: Field<int>)

  function ProductInsertOf(input: ProductCreateInput): ProductInsert {
    ProductInsert(input.columnId, input.name, input.description, input.image, input.price, input.stock, Undefined)
  }

  predicate SlugTaken(cs: seq<Column>, slug: string) {
    exists i :: 0 <= i < |cs| && cs[i].slug == slug
  }

  /** `UPDATE columns SET ... WHERE id = input.id`. */
  function UpdateColumns(cs: seq<Column>, input: ColumnUpdateInput): (r: seq<Column>)
    ensures |r| == |cs|
    ensures forall i :: 0 <= i < |cs| && cs[i].id != input.id ==> r[i] == cs[i]
    ensures forall i :: 0 <= i < |cs| && cs[i].id == input.id ==>
      r[i] == cs[i].(name := Db.Assign(input.name, cs[i].name),
                     displayOrder := Db.Assign(input.displayOrder, cs[i].displayOrder),
                     isActive := Db.Assign(input.isActive, cs[i].isActive))
  {
    if cs == [] then []
    else
      var c := cs[0];
      [if c.id == input.id
       then c.(name := Db.Assign(input.name, c.name),
               displayOrder := Db.Assign(input.displayOrder, c.displayOrder),
               isActive := Db.Assign(input.isActive, c.isActive))
       else c] + UpdateColumns(cs[1..], input)
  }

  /** The update changes only `name`, `displayOrder` and `isActive`, only on
      the row with the given id, and only the properties present; the slug
      key stays unique. */
  lemma UpdateColumnsChangesOnlyTarget(cs: seq<Column>, nextId: nat, input: ColumnUpdateInput)
    requires ColumnsWellFormed(cs, nextId)
    ensures var r := UpdateColumns(cs, input);
      && ColumnsWellFormed(r, nextId)
      && (forall i :: 0 <= i < |cs| ==>
            r[i].id == cs[i].id && r[i].slug == cs[i].slug && r[i].icon == cs[i].icon)
      && (forall i :: 0 <= i < |cs| && input.name.Undefined? ==> r[i].name == cs[i].name)
      && (forall i :: 0 <= i < |cs| && input.displayOrder.Undefined? ==> r[i].displayOrder == cs[i].displayOrder)
      && (forall i :: 0 <= i < |cs| && input.isActive.Undefined? ==> r[i].isActive == cs[i].isActive)
  {
    var r := UpdateColumns(cs, input);
    assert forall i :: 0 <= i < |cs| ==> r[i].id == cs[i].id && r[i].slug == cs[i].slug;
  }

  /** The admin-editable catalogue tables. */
  class Catalog {
    var columns: seq<Column>
    var nextColumnId: nat
    var products: seq<Product>
    var nextProductId: nat

    ghost predicate Valid()
      reads this
    {
      ColumnsWellFormed(columns, nextColumnId) && ProductsWellFormed(products, nextProductId)
    }

    constructor ()
      ensures Valid() && columns == [] && products == [] && nextColumnId == 1 && nextProductId == 1
    {
      columns, products := [], [];
      nextColumnId, nextProductId := 1, 1;
    }

    /** `admin.columns.create`: gate, connection, unique slug, then the
      insert with the column defaults; the answer is the new id. */
    method CreateColumn(user: Option<User>, dbUp: bool, input: ColumnCreateInput) returns (r: Result<nat, Failure>)
      requires Valid()
      modifies this
      ensures Valid()
      ensures products == old(products) && nextProductId == old(nextProductId)
      ensures !IsAdmin(user) ==> r == Err(AdminRequired)
      ensures IsAdmin(user) && !dbUp ==> r == Err(DbUnavailable)
      ensures IsAdmin(user) && dbUp && SlugTaken(old(columns), input.slug) ==> r == Err(DbRefused)
      ensures r.Err? ==> columns == old(columns) && nextColumnId == old(nextColumnId)
      ensures r.Ok? <==> IsAdmin(user) && dbUp && !SlugTaken(old(columns), input.slug)
      ensures r.Ok? ==> r.value == old(nextColumnId) && nextColumnId == old(nextColumnId) + 1
      ensures r.Ok? ==> columns == old(columns) + [InsertedColumn(old(nextColumnId), ColumnInsertOf(input))]
    {
      var gate := AdminGate(user);
      if gate.Err? {
        return Err(gate.error);
      }
      if !dbUp {
        return Err(DbUnavailable);
      }
      if SlugTaken(columns, input.slug) {
        return Err(DbRefused);
      }
      var row := InsertedColumn(nextColumnId, ColumnInsertOf(input));
      forall i, j | 0 <= i < j < |columns| + 1 ensures (columns + [row])[i].slug != (columns + [row])[j].slug {
        if j == |columns| {
          assert (columns + [row])[i] == columns[i];
        }
      }
      columns := columns + [row];
      r := Ok(nextColumnId);
      nextColumnId := nextColumnId + 1;
    }

    /** `admin.columns.update`. */
    method UpdateColumn(user: Option<User>, dbUp: bool, input: ColumnUpdateInput) returns (r: Result<(), Failure>)
      requires Valid()
      modifies this
      ensures Valid()
      ensures products == old(products) && nextProductId == old(nextProductId) && nextColumnId == old(nextColumnId)
      ensures !IsAdmin(user) ==> r == Err(AdminRequired)
      ensures IsAdmin(user) && !dbUp ==> r == Err(DbUnavailable)
      ensures r.Err? ==> columns == old(columns)
      ensures r.Ok? <==> IsAdmin(user) && dbUp
      ensures r.Ok? ==> columns == UpdateColumns(old(columns), input)
    {
      var gate := AdminGate(user);
      if gate.Err? {
        return Err(gate.error);
      }
      if !dbUp {
        return Err(DbUnavailable);
      }
      UpdateColumnsChangesOnlyTarget(columns, nextColumnId, input);
      columns := UpdateColumns(columns, input);
      return Ok(());
    }

    /** `admin.products.create`: gate, connection, a price the decimal(10,2)
      column holds, then the insert with the column defaults. */
    method CreateProduct(user: Option<User>, dbUp: bool, input: ProductCreateInput) returns (r: Result<nat, Failure>)
      requires Valid()
      modifies this
      ensures Valid()
      ensures columns == old(columns) && nextColumnId == old(nextColumnId)
      ensures !IsAdmin(user) ==> r == Err(AdminRequired)
      ensures IsAdmin(user) && !dbUp ==> r == Err(DbUnavailable)
      ensures IsAdmin(user) && dbUp && !FitsDecimal(input.price, 10) ==> r == Err(DbRefused)
      ensures r.Err? ==> products == old(products) && nextProductId == old(nextProductId)
      ensures r.Ok? <==> IsAdmin(user) && dbUp && FitsDecimal(input.price, 10)
      ensures r.Ok? ==> r.value == old(nextProductId) && nextProductId == old(nextProductId) + 1
      ensures r.Ok? ==> products == old(products) + [InsertedProduct(old(nextProductId), ProductInsertOf(input))]
    {
      var gate := AdminGate(user);
      if gate.Err? {
        return Err(gate.error);
      }
      if !dbUp {
        return Err(DbUnavailable);
      }
      if !FitsDecimal(input.price, 10) {
        return Err(DbRefused);
      }
      products := products + [InsertedProduct(nextProductId, ProductInsertOf(input))];
      r := Ok(nextProductId);
      nextProductId := nextProductId + 1;
    }
  }

  /** A created product is visible and in stock only as given: it shows up
      in the public list and in its column's list. */
  lemma CreatedProductIsListed(ps: seq<Product>, id: nat, input: ProductCreateInput)
    ensures var p := InsertedProduct(id, ProductInsertOf(input));
      && p.isVisible
      && p in Db.GetVisibleProducts(true, ps + [p])
      && p in Db.GetProductsByColumnId(true, ps + [p], input.columnId)
  {
    var p := InsertedProduct(id, ProductInsertOf(input));
    assert (ps + [p])[|ps|] == p;
  }
}
