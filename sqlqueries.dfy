/**
 * The SQL text builders of the data provider. A fixed query is a sequence of
 * pieces: literal text, a placeholder slot (an index into the placeholder
 * list), a table name (configurable, so a parameter here) and the caller's
 * ORDER BY direction. Render substitutes them as fmt.Sprintf's %v does.
 */
module SqlQueries {
  import opened Wrappers
  import opened Decimal
  import opened Strings

  datatype Driver = PGSQL | Cockroach | OtherDriver(name: string)

  /** PostgreSQL and CockroachDB number their placeholders; the other drivers use "?". */
  predicate Numbered(d: Driver)
  {
    d.PGSQL? || d.Cockroach?
  }

  /** The i-th placeholder, counting from 0. */
  function Placeholder(d: Driver, i: nat): string
  {
    if Numbered(d) then "$" + Itoa(i + 1) else "?"
  }

  /** A numbered placeholder reads back as its 1-based position; the others are all "?". */
  lemma PlaceholderReadsBack(d: Driver, i: nat)
    ensures Numbered(d) ==> |Placeholder(d, i)| > 1 && Placeholder(d, i)[0] == '$'
    ensures Numbered(d) ==> ParseInt(Placeholder(d, i)[1..]) == Some(i + 1)
    ensures !Numbered(d) ==> Placeholder(d, i) == "?"
  {
    ItoaRoundTrip(i + 1);
    if Numbered(d) {
      assert Placeholder(d, i)[1..] == Itoa(i + 1);
    }
  }

  /** Numbered placeholders never repeat. */
  lemma PlaceholdersDistinct(d: Driver, i: nat, j: nat)
    requires Numbered(d) && i != j
    ensures Placeholder(d, i) != Placeholder(d, j)
  {
    PlaceholderReadsBack(d, i);
    PlaceholderReadsBack(d, j);
  }

  /** getSQLPlaceholders: twenty placeholders for the driver. */
  method GetSQLPlaceholders(d: Driver) returns (ph: seq<string>)
    ensures |ph| == 20
    ensures forall i :: 0 <= i < 20 ==> ph[i] == Placeholder(d, i)
  {
    ph := [];
    var i := 1;
    while i <= 20
      invariant 1 <= i <= 21
      invariant |ph| == i - 1
      invariant forall j :: 0 <= j < |ph| ==> ph[j] == Placeholder(d, j)
    {
      ghost var before := ph;
      if Numbered(d) {
        ph := ph + ["$" + Itoa(i)];
      } else {
        ph := ph + ["?"];
      }
      assert ph == before + [Placeholder(d, i - 1)];
      i := i + 1;
    }
  }

  /** The table names, which the provider configures. */
  datatype Tables = Tables(admins: string, users: string, folders: string, foldersMapping: string, schemaVersion: string)

  datatype Table = Admins | Users | Folders | FoldersMapping | SchemaVersion

  /** An argument of fmt.Sprintf: a placeholder, a table name, the caller's ORDER BY direction, or fixed text. */
  datatype Arg = Slot(index: nat) | Tbl(table: Table) | Order | Text(s: string)

  /** fmt.Sprintf(format, args...) with the format given as the text between its %v verbs. */
  datatype Query = Sprintf(format: seq<string>, args: seq<Arg>)

  predicate WellFormed(q: Query)
  {
    |q.format| == |q.args| + 1
  }

  function TableName(t: Tables, x: Table): string
  {
    match x
    case Admins => t.admins
    case Users => t.users
    case Folders => t.folders
    case FoldersMapping => t.foldersMapping
    case SchemaVersion => t.schemaVersion
  }

  /** The placeholder indices used from argument i on, in order. */
  function SlotsFrom(args: seq<Arg>, i: nat): seq<nat>
    requires i <= |args|
    decreases |args| - i
  {
    if i == |args| then [] else (if args[i].Slot? then [args[i].index] else []) + SlotsFrom(args, i + 1)
  }

  function Slots(q: Query): seq<nat>
  {
    SlotsFrom(q.args, 0)
  }

  predicate SlotsBelow(q: Query, n: nat)
  {
    forall i :: 0 <= i < |q.args| && q.args[i].Slot? ==> q.args[i].index < n
  }

  function Range(n: nat): seq<nat>
  {
    seq(n, i requires 0 <= i => i as nat)
  }

  function ArgText(a: Arg, ph: seq<string>, t: Tables, order: string): string
    requires a.Slot? ==> a.index < |ph|
  {
    match a
    case Slot(k) => ph[k]
    case Tbl(x) => TableName(t, x)
    case Order => order
    case Text(s) => s
  }

  /** The text from format piece i on. */
  function RenderFrom(q: Query, i: nat, ph: seq<string>, t: Tables, order: string): string
    requires WellFormed(q) && SlotsBelow(q, |ph|) && i <= |q.args|
    decreases |q.args| - i
  {
    if i == |q.args| then q.format[i]
    else q.format[i] + ArgText(q.args[i], ph, t, order) + RenderFrom(q, i + 1, ph, t, order)
  }

  /** The text of the query for the given placeholders, tables and order. */
  function Render(q: Query, ph: seq<string>, t: Tables, order: string): string
    requires WellFormed(q) && SlotsBelow(q, |ph|)
  {
    RenderFrom(q, 0, ph, t, order)
  }

  const SelectUserFields := "id,username,password,public_keys,home_dir,uid,gid,max_sessions,quota_size,quota_files,permissions,used_quota_size,"
    + "used_quota_files,last_quota_update,upload_bandwidth,download_bandwidth,expiration_date,last_login,status,filters,filesystem,"
    + "additional_info,description"
  const SelectFolderFields := "id,path,used_quota_size,used_quota_files,last_quota_update,name,description,filesystem"
  const SelectAdminFields := "id,username,password,status,email,permissions,filters,additional_info,description"

  function AdminByUsernameQuery(): (r: Query)
    ensures Disciplined(r) && |Slots(r)| == 1
  {
    var r := Sprintf(["SELECT ", " FROM ", " WHERE username = ", ""], [Text(SelectAdminFields), Tbl(Admins), Slot(0)]);
    assert AscendingFrom(r.args, 2, 0) && SlotsFrom(r.args, 2) == [0];
    assert AscendingFrom(r.args, 1, 0) && SlotsFrom(r.args, 1) == [0];
    r
  }

  /** A paged listing: ORDER BY the column in the caller's direction, LIMIT slot 0, OFFSET slot 1. */
  function ListQuery(fields: string, table: Table, column: string): (r: Query)
    ensures Disciplined(r) && |Slots(r)| == 2
  {
    var r := Sprintf(["SELECT ", " FROM ", " ORDER BY " + column + " ", " LIMIT ", " OFFSET ", ""],
                     [Text(fields), Tbl(table), Order, Slot(0), Slot(1)]);
    assert AscendingFrom(r.args, 4, 1) && SlotsFrom(r.args, 4) == [1];
    assert AscendingFrom(r.args, 3, 0) && SlotsFrom(r.args, 3) == [0, 1];
    assert AscendingFrom(r.args, 1, 0) && SlotsFrom(r.args, 1) == [0, 1];
    r
  }

  function AdminsQuery(): (r: Query)
    ensures Disciplined(r) && |Slots(r)| == 2
  {
    ListQuery(SelectAdminFields, Admins, "username")
  }

  function DumpAdminsQuery(): (r: Query)
    ensures Disciplined(r) && |Slots(r)| == 0
  {
    var r := Sprintf(["SELECT ", " FROM ", ""], [Text(SelectAdminFields), Tbl(Admins)]);
    assert AscendingFrom(r.args, 2, 0) && SlotsFrom(r.args, 2) == [];
    assert AscendingFrom(r.args, 1, 0) && SlotsFrom(r.args, 1) == [];
    r
  }

  const InsertAdminColumns := "username,password,status,email,permissions,filters,additional_info,description"

  /** The arguments the admin insert and update share: the table, then placeholders 0-7. */
  function AdminWriteArgs(): (r: seq<Arg>)
    ensures AscendingFrom(r, 0, 0) && |SlotsFrom(r, 0)| == 8
  {
    [Tbl(Admins), Slot(0), Slot(1), Slot(2), Slot(3), Slot(4), Slot(5), Slot(6), Slot(7)]
  }

  function AddAdminQuery(): (r: Query)
    ensures Disciplined(r) && |Slots(r)| == 8
  {
    Sprintf(["INSERT INTO ", " (" + InsertAdminColumns + ")\n\t\tVALUES (",
             ",", ",", ",", ",", ",", ",", ",", ")"],
            AdminWriteArgs())
  }

  function UpdateAdminQuery(): (r: Query)
    ensures Disciplined(r) && |Slots(r)| == 8
  {
    Sprintf(["UPDATE ", " SET password=", ",status=", ",email=", ",permissions=", ",filters=", ",additional_info=",
             ",description=", "\n\t\tWHERE username = ", ""],
            AdminWriteArgs())
  }

  function DeleteAdminQuery(): (r: Query)
    ensures Disciplined(r) && |Slots(r)| == 1
  {
    Sprintf(["DELETE FROM ", " WHERE username = ", ""], [Tbl(Admins), Slot(0)])
  }

  function UserByUsernameQuery(): (r: Query)
    ensures Disciplined(r) && |Slots(r)| == 1
  {
    var r := Sprintf(["SELECT ", " FROM ", " WHERE username = ", ""], [Text(SelectUserFields), Tbl(Users), Slot(0)]);
    assert AscendingFrom(r.args, 2, 0) && SlotsFrom(r.args, 2) == [0];
    assert AscendingFrom(r.args, 1, 0) && SlotsFrom(r.args, 1) == [0];
    r
  }

  function UsersQuery(): (r: Query)
    ensures Disciplined(r) && |Slots(r)| == 2
  {
    ListQuery(SelectUserFields, Users, "username")
  }

  function DumpUsersQuery(): (r: Query)
    ensures Disciplined(r) && |Slots(r)| == 0
  {
    var r := Sprintf(["SELECT ", " FROM ", ""], [Text(SelectUserFields), Tbl(Users)]);
    assert AscendingFrom(r.args, 2, 0) && SlotsFrom(r.args, 2) == [];
    assert AscendingFrom(r.args, 1, 0) && SlotsFrom(r.args, 1) == [];
    r
  }

  function DumpFoldersQuery(): (r: Query)
    ensures Disciplined(r) && |Slots(r)| == 0
  {
    var r := Sprintf(["SELECT ", " FROM ", ""], [Text(SelectFolderFields), Tbl(Folders)]);
    assert AscendingFrom(r.args, 2, 0) && SlotsFrom(r.args, 2) == [];
    assert AscendingFrom(r.args, 1, 0) && SlotsFrom(r.args, 1) == [];
    r
  }

  /** One column of a quota update: set to its argument, or increased by it. */
  datatype SetItem = Assign(column: string) | Increment(column: string)

  /** The text of a SET item up to its placeholder. */
  function SetItemText(s: SetItem): string
  {
    match s
    case Assign(c) => c + " = "
    case Increment(c) => c + " = " + c + " + "
  }

  /** The quota columns of the users and folders tables. */
  const UsedSize := "used_quota_size"
  const UsedFiles := "used_quota_files"
  const LastUpdate := "last_quota_update"

  lemma QuotaColumnsDistinct()
    ensures UsedSize != UsedFiles && UsedSize != LastUpdate && UsedFiles != LastUpdate
  {
    assert |UsedSize| == 15 && |UsedFiles| == 16 && |LastUpdate| == 17;
  }

  /** With reset the used quota is assigned; otherwise it grows by the arguments. */
  function QuotaItems(reset: bool): seq<SetItem>
  {
    if reset then [Assign(UsedSize), Assign(UsedFiles), Assign(LastUpdate)]
    else [Increment(UsedSize), Increment(UsedFiles), Assign(LastUpdate)]
  }

  /** The quota update of a table keyed by keyColumn: three SET items on slots 0-2, the key on slot 3. */
  function QuotaUpdate(table: Table, keyColumn: string, reset: bool): (r: Query)
    ensures Disciplined(r) && |Slots(r)| == 4
  {
    var items := QuotaItems(reset);
    var r := Sprintf(["UPDATE ", " SET " + SetItemText(items[0]), "," + SetItemText(items[1]), "," + SetItemText(items[2]),
                      (if reset then "\n\t\t\tWHERE " else "\n\t\tWHERE ") + keyColumn + " = ", ""],
                     [Tbl(table), Slot(0), Slot(1), Slot(2), Slot(3)]);
    assert AscendingFrom(r.args, 5, 4) && SlotsFrom(r.args, 5) == [];
    assert AscendingFrom(r.args, 4, 3) && |SlotsFrom(r.args, 4)| == 1;
    assert AscendingFrom(r.args, 3, 2) && |SlotsFrom(r.args, 3)| == 2;
    assert AscendingFrom(r.args, 2, 1) && |SlotsFrom(r.args, 2)| == 3;
    assert AscendingFrom(r.args, 1, 0) && |SlotsFrom(r.args, 1)| == 4;
    assert AscendingFrom(r.args, 0, 0) && |SlotsFrom(r.args, 0)| == 4;
    r
  }

  function UpdateQuotaQuery(reset: bool): (r: Query)
    ensures Disciplined(r) && |Slots(r)| == 4
  {
    QuotaUpdate(Users, "username", reset)
  }

  function UpdateLastLoginQuery(): (r: Query)
    ensures Disciplined(r) && |Slots(r)| == 2
  {
    Sprintf(["UPDATE ", " SET last_login = ", " WHERE username = ", ""], [Tbl(Users), Slot(0), Slot(1)])
  }

  function QuotaQuery(): (r: Query)
    ensures Disciplined(r) && |Slots(r)| == 1
  {
    Sprintf(["SELECT used_quota_size,used_quota_files FROM ", " WHERE username = ", ""], [Tbl(Users), Slot(0)])
  }

  /** The column list of the user insert, line breaks included. */
  const InsertUserColumns := "username,password,public_keys,home_dir,uid,gid,max_sessions,quota_size,quota_files,permissions,\n\t\t"
    + "used_quota_size,used_quota_files,last_quota_update,upload_bandwidth,download_bandwidth,status,last_login,expiration_date,filters,\n\t\t"
    + "filesystem,additional_info,description"

  /** The arguments the user insert and update share: the table, then placeholders 0-17. */
  function UserWriteArgs(): (r: seq<Arg>)
    ensures AscendingFrom(r, 0, 0) && |SlotsFrom(r, 0)| == 18
  {
    var r := [Tbl(Users), Slot(0), Slot(1), Slot(2), Slot(3), Slot(4), Slot(5), Slot(6), Slot(7), Slot(8), Slot(9),
              Slot(10), Slot(11), Slot(12), Slot(13), Slot(14), Slot(15), Slot(16), Slot(17)];
    assert AscendingFrom(r, 16, 15) && |SlotsFrom(r, 16)| == 3;
    assert AscendingFrom(r, 13, 12) && |SlotsFrom(r, 13)| == 6;
    assert AscendingFrom(r, 10, 9) && |SlotsFrom(r, 10)| == 9;
    assert AscendingFrom(r, 7, 6) && |SlotsFrom(r, 7)| == 12;
    assert AscendingFrom(r, 4, 3) && |SlotsFrom(r, 4)| == 15;
    assert AscendingFrom(r, 1, 0) && |SlotsFrom(r, 1)| == 18;
    r
  }

  function AddUserQuery(): (r: Query)
    ensures Disciplined(r) && |Slots(r)| == 18
  {
    Sprintf(["INSERT INTO ",
             " (" + InsertUserColumns + ")\n\t\tVALUES (",
             ",", ",", ",", ",", ",", ",", ",", ",", ",", ",0,0,0,", ",", ",", ",0,", ",", ",", ",", ",", ")"],
            UserWriteArgs())
  }

  function UpdateUserQuery(): (r: Query)
    ensures Disciplined(r) && |Slots(r)| == 18
  {
    Sprintf(["UPDATE ", " SET password=", ",public_keys=", ",home_dir=", ",uid=", ",gid=", ",max_sessions=", ",quota_size=",
             ",\n\t\tquota_files=", ",permissions=", ",upload_bandwidth=", ",download_bandwidth=", ",status=",
             ",expiration_date=", ",filters=", ",filesystem=", ",\n\t\tadditional_info=", ",description=", " WHERE id = ", ""],
            UserWriteArgs())
  }

  function DeleteUserQuery(): (r: Query)
    ensures Disciplined(r) && |Slots(r)| == 1
  {
    Sprintf(["DELETE FROM ", " WHERE id = ", ""], [Tbl(Users), Slot(0)])
  }

  function FolderByNameQuery(): (r: Query)
    ensures Disciplined(r) && |Slots(r)| == 1
  {
    var r := Sprintf(["SELECT ", " FROM ", " WHERE name = ", ""], [Text(SelectFolderFields), Tbl(Folders), Slot(0)]);
    assert AscendingFrom(r.args, 2, 0) && SlotsFrom(r.args, 2) == [0];
    assert AscendingFrom(r.args, 1, 0) && SlotsFrom(r.args, 1) == [0];
    r
  }

  function CheckFolderNameQuery(): (r: Query)
    ensures Disciplined(r) && |Slots(r)| == 1
  {
    Sprintf(["SELECT name FROM ", " WHERE name = ", ""], [Tbl(Folders), Slot(0)])
  }

  const InsertFolderColumns := "path,used_quota_size,used_quota_files,last_quota_update,name,description,filesystem"

  /** The arguments of the folder insert: the table, then placeholders 0-6. */
  function FolderInsertArgs(): (r: seq<Arg>)
    ensures AscendingFrom(r, 0, 0) && |SlotsFrom(r, 0)| == 7
  {
    [Tbl(Folders), Slot(0), Slot(1), Slot(2), Slot(3), Slot(4), Slot(5), Slot(6)]
  }

  function AddFolderQuery(): (r: Query)
    ensures Disciplined(r) && |Slots(r)| == 7
  {
    Sprintf(["INSERT INTO ", " (" + InsertFolderColumns + ")\n\t\tVALUES (",
             ",", ",", ",", ",", ",", ",", ")"],
            FolderInsertArgs())
  }

  function UpdateFolderQuery(): (r: Query)
    ensures Disciplined(r) && |Slots(r)| == 4
  {
    Sprintf(["UPDATE ", " SET path=", ",description=", ",filesystem=", " WHERE name = ", ""],
            [Tbl(Folders), Slot(0), Slot(1), Slot(2), Slot(3)])
  }

  function DeleteFolderQuery(): (r: Query)
    ensures Disciplined(r) && |Slots(r)| == 1
  {
    Sprintf(["DELETE FROM ", " WHERE id = ", ""], [Tbl(Folders), Slot(0)])
  }

  function ClearFolderMappingQuery(): (r: Query)
    ensures Disciplined(r) && |Slots(r)| == 1
  {
    Sprintf(["DELETE FROM ", " WHERE user_id = (SELECT id FROM ", " WHERE username = ", ")"],
            [Tbl(FoldersMapping), Tbl(Users), Slot(0)])
  }

  const InsertMappingColumns := "virtual_path,quota_size,quota_files,folder_id,user_id"

  function AddFolderMappingQuery(): (r: Query)
    ensures Disciplined(r) && |Slots(r)| == 5
  {
    Sprintf(["INSERT INTO ", " (" + InsertMappingColumns + ")\n\t\tVALUES (",
             ",", ",", ",", ",(SELECT id FROM ", " WHERE username = ", "))"],
            [Tbl(FoldersMapping), Slot(0), Slot(1), Slot(2), Slot(3), Tbl(Users), Slot(4)])
  }

  function FoldersQuery(): (r: Query)
    ensures Disciplined(r) && |Slots(r)| == 2
  {
    ListQuery(SelectFolderFields, Folders, "name")
  }

  function UpdateFolderQuotaQuery(reset: bool): (r: Query)
    ensures Disciplined(r) && |Slots(r)| == 4
  {
    QuotaUpdate(Folders, "name", reset)
  }

  function QuotaFolderQuery(): (r: Query)
    ensures Disciplined(r) && |Slots(r)| == 1
  {
    Sprintf(["SELECT used_quota_size,used_quota_files FROM ", " WHERE name = ", ""], [Tbl(Folders), Slot(0)])
  }

  function DatabaseVersionQuery(): (r: Query)
    ensures Disciplined(r) && |Slots(r)| == 0
  {
    Sprintf(["SELECT version from ", " LIMIT 1"], [Tbl(SchemaVersion)])
  }

  function UpdateDBVersionQuery(): (r: Query)
    ensures Disciplined(r) && |Slots(r)| == 1
  {
    Sprintf(["UPDATE ", " SET version=", ""], [Tbl(SchemaVersion), Slot(0)])
  }

  function CompatUserV10FsConfigQuery(): (r: Query)
    ensures Disciplined(r) && |Slots(r)| == 0
  {
    Sprintf(["SELECT id,username,filesystem FROM ", ""], [Tbl(Users)])
  }

  function UpdateCompatUserV10FsConfigQuery(): (r: Query)
    ensures Disciplined(r) && |Slots(r)| == 2
  {
    Sprintf(["UPDATE ", " SET filesystem=", " WHERE id=", ""], [Tbl(Users), Slot(0), Slot(1)])
  }

  function CompatFolderV10FsConfigQuery(): (r: Query)
    ensures Disciplined(r) && |Slots(r)| == 0
  {
    Sprintf(["SELECT id,name,filesystem FROM ", ""], [Tbl(Folders)])
  }

  function UpdateCompatFolderV10FsConfigQuery(): (r: Query)
    ensures Disciplined(r) && |Slots(r)| == 2
  {
    Sprintf(["UPDATE ", " SET filesystem=", " WHERE id=", ""], [Tbl(Folders), Slot(0), Slot(1)])
  }

  /** The Slot arguments from position i on read next, next + 1, next + 2, ... */
  predicate AscendingFrom(args: seq<Arg>, i: nat, next: nat)
    requires i <= |args|
    decreases |args| - i
  {
    i == |args|
    || (if args[i].Slot? then args[i].index == next && AscendingFrom(args, i + 1, next + 1)
        else AscendingFrom(args, i + 1, next))
  }

  /**
   * The placeholder discipline: the query is well formed, uses at most
   * eighteen placeholders, and uses them as 0, 1, 2, ... in order.
   */
  predicate Disciplined(q: Query)
  {
    && WellFormed(q)
    && |Slots(q)| <= 18
    && AscendingFrom(q.args, 0, 0)
  }

  lemma {:induction false} AscendingSlots(args: seq<Arg>, i: nat, next: nat)
    requires i <= |args| && AscendingFrom(args, i, next)
    ensures forall j :: 0 <= j < |SlotsFrom(args, i)| ==> SlotsFrom(args, i)[j] == next + j
    decreases |args| - i
  {
    if i < |args| {
      if args[i].Slot? {
        AscendingSlots(args, i + 1, next + 1);
      } else {
        AscendingSlots(args, i + 1, next);
      }
    }
  }

  lemma {:induction false} SlotListed(args: seq<Arg>, lo: nat, i: nat)
    requires lo <= i < |args| && args[i].Slot?
    ensures args[i].index in SlotsFrom(args, lo)
    decreases i - lo
  {
    if lo < i {
      SlotListed(args, lo + 1, i);
    }
  }

  /**
   * A disciplined query with k placeholders binds exactly slots 0..k-1 in
   * order, so the twenty placeholders of getSQLPlaceholders suffice.
   */
  lemma DisciplinedSlots(q: Query)
    requires Disciplined(q)
    ensures Slots(q) == Range(|Slots(q)|)
    ensures SlotsBelow(q, 18)
  {
    AscendingSlots(q.args, 0, 0);
    forall i | 0 <= i < |q.args| && q.args[i].Slot? ensures q.args[i].index < 18 {
      SlotListed(q.args, 0, i);
    }
  }

  /** The fixed queries on the admins table. */
  function AdminQueries(): (qs: seq<Query>)
    ensures forall i :: 0 <= i < |qs| ==> Disciplined(qs[i])
  {
    [AdminByUsernameQuery(), AdminsQuery(), DumpAdminsQuery(), AddAdminQuery(), UpdateAdminQuery(), DeleteAdminQuery()]
  }

  /** The fixed queries on the users table, both quota variants included. */
  function UserQueries(): (qs: seq<Query>)
    ensures forall i :: 0 <= i < |qs| ==> Disciplined(qs[i])
  {
    [UserByUsernameQuery(), UsersQuery(), DumpUsersQuery(), UpdateQuotaQuery(false), UpdateQuotaQuery(true),
     UpdateLastLoginQuery(), QuotaQuery(), AddUserQuery(), UpdateUserQuery(), DeleteUserQuery()]
  }

  /** The fixed queries on the folders and mapping tables, both quota variants included. */
  function FolderQueries(): (qs: seq<Query>)
    ensures forall i :: 0 <= i < |qs| ==> Disciplined(qs[i])
  {
    [DumpFoldersQuery(), FolderByNameQuery(), CheckFolderNameQuery(), AddFolderQuery(), UpdateFolderQuery(),
     DeleteFolderQuery(), ClearFolderMappingQuery(), AddFolderMappingQuery(), FoldersQuery(),
     UpdateFolderQuotaQuery(false), UpdateFolderQuotaQuery(true), QuotaFolderQuery()]
  }

  /** The schema-version and compatibility queries. */
  function SchemaQueries(): (qs: seq<Query>)
    ensures forall i :: 0 <= i < |qs| ==> Disciplined(qs[i])
  {
    [DatabaseVersionQuery(), UpdateDBVersionQuery(), CompatUserV10FsConfigQuery(), UpdateCompatUserV10FsConfigQuery(),
     CompatFolderV10FsConfigQuery(), UpdateCompatFolderV10FsConfigQuery()]
  }

  /** Every fixed query of the provider. */
  function FixedQueries(): seq<Query>
  {
    AdminQueries() + UserQueries() + FolderQueries() + SchemaQueries()
  }

  /**
   * Every fixed query binds its placeholders as 0, 1, 2, ... in order, and
   * none beyond 17, so the twenty of getSQLPlaceholders always suffice.
   */
  lemma FixedQueriesFit()
    ensures forall i :: 0 <= i < |FixedQueries()| ==>
      var q := FixedQueries()[i]; Disciplined(q) && Slots(q) == Range(|Slots(q)|) && SlotsBelow(q, 18)
  {
    var qs := FixedQueries();
    var a, u, f := AdminQueries(), UserQueries(), FolderQueries();
    forall i | 0 <= i < |qs|
      ensures Disciplined(qs[i]) && Slots(qs[i]) == Range(|Slots(qs[i])|) && SlotsBelow(qs[i], 18)
    {
      if i < |a| {
        assert qs[i] == a[i];
      } else if i < |a| + |u| {
        assert qs[i] == u[i - |a|];
      } else if i < |a| + |u| + |f| {
        assert qs[i] == f[i - |a| - |u|];
      } else {
        assert qs[i] == SchemaQueries()[i - |a| - |u| - |f|];
      }
      DisciplinedSlots(qs[i]);
    }
  }

  lemma QuotaUpdateShape(table: Table, keyColumn: string, reset: bool)
    ensures WellFormed(QuotaUpdate(table, keyColumn, reset))
    ensures QuotaUpdate(table, keyColumn, reset).args == [Tbl(table), Slot(0), Slot(1), Slot(2), Slot(3)]
  {
  }

  /** A listing puts the direction verbatim after ORDER BY, then LIMIT and OFFSET on the first two placeholders. */
  lemma ListQueryText(fields: string, table: Table, column: string, ph: seq<string>, t: Tables, order: string)
    requires |ph| >= 2
    ensures SlotsBelow(ListQuery(fields, table, column), |ph|)
    ensures Render(ListQuery(fields, table, column), ph, t, order)
         == "SELECT " + fields + (" FROM " + TableName(t, table) + (" ORDER BY " + column + " " + order
            + (" LIMIT " + ph[0] + (" OFFSET " + ph[1] + ""))))
  {
    var q := ListQuery(fields, table, column);
    assert RenderFrom(q, 5, ph, t, order) == "";
    assert RenderFrom(q, 4, ph, t, order) == " OFFSET " + ph[1] + "";
    assert RenderFrom(q, 3, ph, t, order) == " LIMIT " + ph[0] + RenderFrom(q, 4, ph, t, order);
    assert RenderFrom(q, 2, ph, t, order) == " ORDER BY " + column + " " + order + RenderFrom(q, 3, ph, t, order);
    assert RenderFrom(q, 1, ph, t, order) == " FROM " + TableName(t, table) + RenderFrom(q, 2, ph, t, order);
    assert RenderFrom(q, 0, ph, t, order) == "SELECT " + fields + RenderFrom(q, 1, ph, t, order);
  }

  /** The stored value of a column, zero when the row has none. */
  function Stored(row: map<string, int>, c: string): int
  {
    if c in row then row[c] else 0
  }

  /** One SET item: an assignment stores the value, an increment adds it to the stored one. */
  function ApplyItem(row: map<string, int>, item: SetItem, value: int): map<string, int>
  {
    match item
    case Assign(c) => row[c := value]
    case Increment(c) => row[c := Stored(row, c) + value]
  }

  /** The effect of a SET list on a row: item i takes values[i], left to right. */
  function ApplySet(row: map<string, int>, items: seq<SetItem>, values: seq<int>): map<string, int>
    requires |values| == |items|
    decreases |items|
  {
    if |items| == 0 then row else ApplySet(ApplyItem(row, items[0], values[0]), items[1..], values[1..])
  }

  /** A three-item SET list is the three items applied in turn. */
  lemma ApplyThree(row: map<string, int>, items: seq<SetItem>, a: int, b: int, c: int)
    requires |items| == 3
    ensures ApplySet(row, items, [a, b, c])
         == ApplyItem(ApplyItem(ApplyItem(row, items[0], a), items[1], b), items[2], c)
  {
    var r1 := ApplyItem(row, items[0], a);
    var r2 := ApplyItem(r1, items[1], b);
    assert [a, b, c][1..] == [b, c] && [b, c][1..] == [c] && [c][1..] == [];
    assert ApplySet(r2, items[2..], [c]) == ApplySet(ApplyItem(r2, items[2], c), items[3..], []);
  }

  /** The quota statement's row, written out: the three quota columns set, nothing else touched. */
  function QuotaRow(reset: bool, row: map<string, int>, size: int, files: int, time: int): map<string, int>
  {
    row[UsedSize := if reset then size else Stored(row, UsedSize) + size]
       [UsedFiles := if reset then files else Stored(row, UsedFiles) + files]
       [LastUpdate := time]
  }

  /** The SET list of either quota statement has the written-out effect. */
  lemma QuotaUpdateRow(reset: bool, row: map<string, int>, size: int, files: int, time: int)
    ensures ApplySet(row, QuotaItems(reset), [size, files, time]) == QuotaRow(reset, row, size, files, time)
  {
    ApplyThree(row, QuotaItems(reset), size, files, time);
    QuotaColumnsDistinct();
  }

  /** The quota statements: reset stores the arguments, otherwise they are added; nothing else changes. */
  lemma QuotaUpdateEffect(reset: bool, row: map<string, int>, size: int, files: int, time: int)
    ensures var r := ApplySet(row, QuotaItems(reset), [size, files, time]);
      && r.Keys == row.Keys + {UsedSize, UsedFiles, LastUpdate}
      && r[UsedSize] == (if reset then size else Stored(row, UsedSize) + size)
      && r[UsedFiles] == (if reset then files else Stored(row, UsedFiles) + files)
      && r[LastUpdate] == time
      && forall c :: c in row && c !in {UsedSize, UsedFiles, LastUpdate} ==> r[c] == row[c]
  {
    QuotaUpdateRow(reset, row, size, files, time);
    QuotaColumnsDistinct();
  }

  lemma ThreeUpdates(m: map<string, int>, a: string, b: string, c: string, x: int, y: int, z: int, x2: int, y2: int, z2: int)
    ensures m[a := x][b := y][c := z][a := x2][b := y2][c := z2] == m[a := x2][b := y2][c := z2]
  {
  }

  lemma QuotaRowIncrementsAdd(row: map<string, int>, s1: int, f1: int, t1: int, s2: int, f2: int, t2: int)
    ensures QuotaRow(false, QuotaRow(false, row, s1, f1, t1), s2, f2, t2) == QuotaRow(false, row, s1 + s2, f1 + f2, t2)
  {
    var once := QuotaRow(false, row, s1, f1, t1);
    QuotaColumnsDistinct();
    assert Stored(once, UsedSize) == Stored(row, UsedSize) + s1;
    assert Stored(once, UsedFiles) == Stored(row, UsedFiles) + f1;
    ThreeUpdates(row, UsedSize, UsedFiles, LastUpdate, Stored(row, UsedSize) + s1, Stored(row, UsedFiles) + f1, t1,
                 Stored(row, UsedSize) + (s1 + s2), Stored(row, UsedFiles) + (f1 + f2), t2);
  }

  /** Two incremental updates are one update by the sums. */
  lemma QuotaIncrementsAdd(row: map<string, int>, s1: int, f1: int, t1: int, s2: int, f2: int, t2: int)
    ensures ApplySet(ApplySet(row, QuotaItems(false), [s1, f1, t1]), QuotaItems(false), [s2, f2, t2])
         == ApplySet(row, QuotaItems(false), [s1 + s2, f1 + f2, t2])
  {
    QuotaUpdateRow(false, row, s1, f1, t1);
    QuotaUpdateRow(false, QuotaRow(false, row, s1, f1, t1), s2, f2, t2);
    QuotaUpdateRow(false, row, s1 + s2, f1 + f2, t2);
    QuotaRowIncrementsAdd(row, s1, f1, t1, s2, f2, t2);
  }

  /** A reset forgets what any update before it did. */
  lemma QuotaResetForgets(reset: bool, row: map<string, int>, s1: int, f1: int, t1: int, s2: int, f2: int, t2: int)
    ensures ApplySet(ApplySet(row, QuotaItems(reset), [s1, f1, t1]), QuotaItems(true), [s2, f2, t2])
         == ApplySet(row, QuotaItems(true), [s2, f2, t2])
  {
    var first := ApplySet(row, QuotaItems(reset), [s1, f1, t1]);
    QuotaUpdateRow(reset, row, s1, f1, t1);
    QuotaUpdateRow(true, first, s2, f2, t2);
    QuotaUpdateRow(true, row, s2, f2, t2);
    ThreeUpdates(row, UsedSize, UsedFiles, LastUpdate,
                 if reset then s1 else Stored(row, UsedSize) + s1, if reset then f1 else Stored(row, UsedFiles) + f1, t1,
                 s2, f2, t2);
  }

  /** The decimal texts of the ids. */
  function IdTexts(ids: seq<int>): (r: seq<string>)
    ensures |r| == |ids|
    ensures forall i :: 0 <= i < |ids| ==> r[i] == Itoa(ids[i])
  {
    seq(|ids|, i requires 0 <= i < |ids| => Itoa(ids[i]))
  }

  /** The IN list: "" for no ids, else "(" + the ids joined by "," + ")". */
  function IdList(ids: seq<int>): (r: string)
    ensures r == "" <==> |ids| == 0
    ensures |ids| > 0 ==> |r| >= 3 && r[0] == '(' && r[|r| - 1] == ')'
  {
    if |ids| == 0 then "" else "(" + Join(IdTexts(ids), ',') + ")"
  }

  lemma IdTextsStep(ids: seq<int>, i: nat)
    requires i < |ids|
    ensures IdTexts(ids[..i + 1]) == IdTexts(ids[..i]) + [Itoa(ids[i])]
  {
  }

  /** The strings.Builder loop shared by the two IN-list getters. */
  method BuildIdList(ids: seq<int>) returns (s: string)
    ensures s == IdList(ids)
  {
    s := "";
    for i := 0 to |ids|
      invariant i == 0 ==> s == ""
      invariant i > 0 ==> s == "(" + Join(IdTexts(ids[..i]), ',')
    {
      IdTextsStep(ids, i);
      ghost var done := IdTexts(ids[..i]);
      if |s| == 0 {
        s := s + "(";
        assert done == [];
      } else {
        s := s + ",";
        JoinAppend(done, Itoa(ids[i]), ',');
      }
      s := s + Itoa(ids[i]);
    }
    assert ids[..|ids|] == ids;
    if |s| > 0 {
      s := s + ")";
    }
  }

  lemma ItoaHasNoComma(n: int)
    ensures NoSep(Itoa(n), ',')
  {
  }

  /** A non-empty IN list holds the ids in order, n - 1 commas apart, and reads back as the ids. */
  lemma IdListReadsBack(ids: seq<int>)
    requires |ids| > 0
    ensures var s := IdList(ids);
      && |s| >= 3 && s[0] == '(' && s[|s| - 1] == ')'
      && Count(s, ',') == |ids| - 1
      && var parts := Split(s[1..|s| - 1], ',');
         |parts| == |ids| && forall i :: 0 <= i < |ids| ==> ParseInt(parts[i]) == Some(ids[i])
  {
    var texts := IdTexts(ids);
    forall i | 0 <= i < |texts| ensures NoSep(texts[i], ',') {
      ItoaHasNoComma(ids[i]);
    }
    var inner := Join(texts, ',');
    var s := IdList(ids);
    assert s == "(" + inner + ")";
    assert s[1..|s| - 1] == inner;
    SplitJoin(texts, ',');
    JoinSeparatorCount(texts, ',');
    CountAppend("(", inner, ',');
    CountAppend("(" + inner, ")", ',');
    assert Count("(", ',') == 0 && Count(")", ',') == 0;
    forall i | 0 <= i < |ids| ensures ParseInt(texts[i]) == Some(ids[i]) {
      ItoaRoundTrip(ids[i]);
    }
  }

  /** The folders joined with their mappings, for the users whose ids form the IN list. */
  const RelatedFolderFields := "f.id,f.name,f.path,f.used_quota_size,f.used_quota_files,f.last_quota_update,fm.virtual_path,\n\t\t"
    + "fm.quota_size,fm.quota_files,fm.user_id,f.filesystem,f.description"

  function RelatedFoldersQuery(inList: string): (r: Query)
    ensures Disciplined(r) && Slots(r) == []
    ensures |r.args| == 3 && r.args[2] == Text(inList)
  {
    var r := Sprintf(["SELECT " + RelatedFolderFields + " FROM ", " f INNER JOIN ", " fm ON f.id = fm.folder_id WHERE\n\t\tfm.user_id IN ",
                      " ORDER BY fm.user_id"],
                     [Tbl(Folders), Tbl(FoldersMapping), Text(inList)]);
    NoSlots(r);
    r
  }

  /** The users mapped to the folders whose ids form the IN list. */
  function RelatedUsersQuery(inList: string): (r: Query)
    ensures Disciplined(r) && Slots(r) == []
    ensures |r.args| == 3 && r.args[2] == Text(inList)
  {
    var r := Sprintf(["SELECT fm.folder_id,u.username FROM ", " fm INNER JOIN ", " u ON fm.user_id = u.id\n\t\tWHERE fm.folder_id IN ",
                      " ORDER BY fm.folder_id"],
                     [Tbl(FoldersMapping), Tbl(Users), Text(inList)]);
    NoSlots(r);
    r
  }

  /** Three arguments, none a placeholder. */
  lemma NoSlots(q: Query)
    requires |q.format| == 4 && |q.args| == 3
    requires !q.args[0].Slot? && !q.args[1].Slot? && !q.args[2].Slot?
    ensures Disciplined(q) && Slots(q) == []
  {
    assert SlotsFrom(q.args, 2) == [] && AscendingFrom(q.args, 2, 0);
    assert SlotsFrom(q.args, 1) == [] && AscendingFrom(q.args, 1, 0);
  }

  /** getRelatedFoldersForUsersQuery: the IN list of the users' ids, in order; no placeholder is bound. */
  method RelatedFoldersForUsersQuery(userIds: seq<int>) returns (q: Query)
    ensures q == RelatedFoldersQuery(IdList(userIds))
    ensures Disciplined(q) && Slots(q) == []
  {
    var list := BuildIdList(userIds);
    q := RelatedFoldersQuery(list);
  }

  /** getRelatedUsersForFoldersQuery: the IN list of the folders' ids, in order; no placeholder is bound. */
  method RelatedUsersForFoldersQuery(folderIds: seq<int>) returns (q: Query)
    ensures q == RelatedUsersQuery(IdList(folderIds))
    ensures Disciplined(q) && Slots(q) == []
  {
    var list := BuildIdList(folderIds);
    q := RelatedUsersQuery(list);
  }
}
