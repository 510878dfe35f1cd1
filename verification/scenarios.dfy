/**
 Concrete runs of the engine on a small `Supplier` source whose rows are cached
 on a target as `supplier_id`, `supplier_name`, `supplier_status` and
 `supplier_denormalized_at`.
 */
module Scenarios {
  import opened Records
  import opened ColumnMapping
  import opened Projector
  import opened Callbacks

  const StatusTable: map<Value, Value> := map[Int(0) := Str("pending"), Int(1) := Str("active"), Int(2) := Str("closed")]

  const Supplier: SourceType := SourceType("supplier", ["id", "name", "status"], "id", map["status" := StatusTable])

  /** The mapping the resolver builds for `Supplier`, written out. */
  const SupplierColumns: Mapping := Mapping(
    ["supplier_id", "supplier_name", "supplier_status", "supplier_denormalized_at"],
    map["supplier_id" := "id", "supplier_name" := "name", "supplier_status" := "status",
        "supplier_denormalized_at" := TimestampSentinel])

  function SupplierRow(id: int, name: string, status: int, createdAt: int): Record
  {
    Record(map["id" := Int(id), "name" := Str(name), "status" := Int(status)], createdAt)
  }

  /** Supplier rows used below: Acme with status 2 ("closed") and with the
      unlabelled status 5, and three siblings created at times 10, 30 and 5. */
  const Acme: Record := SupplierRow(7, "Acme", 2, 5)
  const AcmeUnlabelled: Record := SupplierRow(7, "Acme", 5, 5)
  const First: Record := SupplierRow(1, "A", 0, 10)
  const Second: Record := SupplierRow(2, "B", 1, 30)
  const Third: Record := SupplierRow(3, "C", 1, 5)

  /** The default `denormalize` scope, which selects every record. */
  const AllRecords: Record -> bool := _ => true

  /** A supplier row that has all three columns and a status with a label. */
  ghost predicate Labelled(src: Record)
  {
    "id" in src.attrs && "name" in src.attrs && "status" in src.attrs && src.attrs["status"] in StatusTable
  }

  /** A target caching every supplier column, currently pointing at supplier `id`. */
  function TargetOf(id: int): Record
  {
    Record(map[
      "id" := Int(100),
      "supplier_id" := Int(id),
      "supplier_name" := Nil,
      "supplier_status" := Nil,
      "supplier_denormalized_at" := Nil], 0)
  }

  lemma IndexId()
    ensures IndexBy("supplier", ["id"]) == Mapping(["supplier_id"], map["supplier_id" := "id"])
  {
    assert ColumnKey("supplier", "id") == "supplier_id";
    assert ["id"][..0] == [];
  }

  lemma IndexIdName()
    ensures IndexBy("supplier", ["id", "name"])
         == Mapping(["supplier_id", "supplier_name"], map["supplier_id" := "id", "supplier_name" := "name"])
  {
    IndexId();
    assert ColumnKey("supplier", "name") == "supplier_name";
    assert ["id", "name"][..1] == ["id"];
  }

  lemma IndexSupplierColumns()
    ensures IndexBy("supplier", ["id", "name", "status"])
         == Mapping(["supplier_id", "supplier_name", "supplier_status"],
                    map["supplier_id" := "id", "supplier_name" := "name", "supplier_status" := "status"])
  {
    IndexIdName();
    assert ColumnKey("supplier", "status") == "supplier_status";
    assert ["id", "name", "status"][..2] == ["id", "name"];
    AppendStatus();
  }

  /** `index_by` inserting `supplier_status` after the first two keys. */
  lemma AppendStatus()
    ensures Insert(Mapping(["supplier_id", "supplier_name"], map["supplier_id" := "id", "supplier_name" := "name"]),
                   "supplier_status", "status")
         == Mapping(["supplier_id", "supplier_name", "supplier_status"],
                    map["supplier_id" := "id", "supplier_name" := "name", "supplier_status" := "status"])
  {
    assert "supplier_status" !in map["supplier_id" := "id", "supplier_name" := "name"];
  }

  lemma SupplierSentinelKey()
    ensures ColumnKey("supplier", TimestampSentinel) == "supplier_denormalized_at"
  {
  }

  /** The resolver maps `supplier_{c}` to `c` for id, name and status, in that
      order, and appends `supplier_denormalized_at` for the write time. */
  lemma SupplierMapping()
    ensures DenormalizedColumnMapping(Supplier) == SupplierColumns
  {
    IndexSupplierColumns();
    SupplierSentinelKey();
    AppendSentinel();
  }

  /** The sentinel assignment appends the fourth key. */
  lemma AppendSentinel()
    ensures Insert(Mapping(["supplier_id", "supplier_name", "supplier_status"],
                           map["supplier_id" := "id", "supplier_name" := "name", "supplier_status" := "status"]),
                   "supplier_denormalized_at", TimestampSentinel)
         == SupplierColumns
  {
    assert "supplier_denormalized_at" !in map["supplier_id" := "id", "supplier_name" := "name", "supplier_status" := "status"];
  }

  /** Where each cached column of `Supplier` comes from. */
  lemma SupplierColumnsOf()
    ensures SupplierColumns.columnOf["supplier_id"] == "id"
    ensures SupplierColumns.columnOf["supplier_name"] == "name"
    ensures SupplierColumns.columnOf["supplier_status"] == "status"
    ensures SupplierColumns.columnOf["supplier_denormalized_at"] == TimestampSentinel
  {
  }

  /** Only `status` has an enum table. */
  lemma SupplierEnums()
    ensures "id" !in Supplier.enums && "name" !in Supplier.enums
    ensures "status" in Supplier.enums && Supplier.enums["status"] == StatusTable
  {
  }

  lemma SupplierColumnsValid()
    ensures Valid(SupplierColumns)
  {
    SupplierMapping();
  }

  /** A target of `TargetOf` has all four cached columns, and its own `id` is not one of them. */
  lemma SupplierTargeted(id: int)
    ensures Targeted(SupplierColumns, TargetOf(id))
         == {"supplier_id", "supplier_name", "supplier_status", "supplier_denormalized_at"}
    ensures "id" !in Targeted(SupplierColumns, TargetOf(id))
  {
  }

  /** A labelled supplier row is rejected by no mapped column. */
  lemma SupplierRowAccepted(src: Record)
    requires Labelled(src)
    ensures forall k :: k in SupplierColumns.columnOf ==> !Rejects(Supplier, src, SupplierColumns.columnOf[k])
  {
  }

  /** Projecting a labelled row onto a target caching every supplier column
      issues one update over all four cached columns. */
  lemma SupplierProjectionWrites(src: Record, id: int)
    requires Labelled(src)
    ensures Valid(SupplierColumns)
    ensures var r := Project(Supplier, SupplierColumns, src, TargetOf(id), 42);
      && r.Ok? && r.value.Update?
      && r.value.attrs.Keys == {"supplier_id", "supplier_name", "supplier_status", "supplier_denormalized_at"}
      && "id" !in r.value.attrs
  {
    SupplierColumnsValid();
    SupplierTargeted(id);
    SupplierRowAccepted(src);
  }

  /** Each cached column receives its source column's value, the status its label. */
  lemma CachesId(src: Record, id: int)
    requires Labelled(src)
    ensures Valid(SupplierColumns)
    ensures var r := Project(Supplier, SupplierColumns, src, TargetOf(id), 42);
      r.Ok? && r.value.Update? && "supplier_id" in r.value.attrs && r.value.attrs["supplier_id"] == src.attrs["id"]
  {
    SupplierProjectionWrites(src, id);
    ProjectedValues(Supplier, SupplierColumns, src, TargetOf(id), 42, "supplier_id");
    SupplierColumnsOf();
    SupplierEnums();
  }

  lemma CachesName(src: Record, id: int)
    requires Labelled(src)
    ensures Valid(SupplierColumns)
    ensures var r := Project(Supplier, SupplierColumns, src, TargetOf(id), 42);
      r.Ok? && r.value.Update? && "supplier_name" in r.value.attrs && r.value.attrs["supplier_name"] == src.attrs["name"]
  {
    SupplierProjectionWrites(src, id);
    ProjectedValues(Supplier, SupplierColumns, src, TargetOf(id), 42, "supplier_name");
    SupplierColumnsOf();
    SupplierEnums();
  }

  lemma CachesStatusLabel(src: Record, id: int)
    requires Labelled(src)
    ensures Valid(SupplierColumns)
    ensures var r := Project(Supplier, SupplierColumns, src, TargetOf(id), 42);
      r.Ok? && r.value.Update? && "supplier_status" in r.value.attrs && r.value.attrs["supplier_status"] == StatusTable[src.attrs["status"]]
  {
    SupplierProjectionWrites(src, id);
    ProjectedValues(Supplier, SupplierColumns, src, TargetOf(id), 42, "supplier_status");
    SupplierColumnsOf();
    SupplierEnums();
  }

  lemma CachesWriteTime(src: Record, id: int)
    requires Labelled(src)
    ensures Valid(SupplierColumns)
    ensures var r := Project(Supplier, SupplierColumns, src, TargetOf(id), 42);
      r.Ok? && r.value.Update? && "supplier_denormalized_at" in r.value.attrs && r.value.attrs["supplier_denormalized_at"] == Time(42)
  {
    SupplierProjectionWrites(src, id);
    ProjectedValues(Supplier, SupplierColumns, src, TargetOf(id), 42, "supplier_denormalized_at");
    SupplierColumnsOf();
  }

  /** The persisted target: every cached column holds the projected value,
      and the target's own `id` is untouched. */
  lemma SupplierPersisted(src: Record, id: int)
    requires Labelled(src)
    ensures Valid(SupplierColumns)
    ensures var after := Persisted(TargetOf(id), Project(Supplier, SupplierColumns, src, TargetOf(id), 42));
      && "supplier_id" in after.attrs && after.attrs["supplier_id"] == src.attrs["id"]
      && "supplier_name" in after.attrs && after.attrs["supplier_name"] == src.attrs["name"]
      && "supplier_status" in after.attrs && after.attrs["supplier_status"] == StatusTable[src.attrs["status"]]
      && "supplier_denormalized_at" in after.attrs && after.attrs["supplier_denormalized_at"] == Time(42)
      && "id" in after.attrs && after.attrs["id"] == Int(100)
  {
    CachesId(src, id);
    CachesName(src, id);
    CachesStatusLabel(src, id);
    CachesWriteTime(src, id);
    SupplierProjectionWrites(src, id);
    var r := Project(Supplier, SupplierColumns, src, TargetOf(id), 42);
    PersistedLookup(TargetOf(id), r, "supplier_id");
    PersistedLookup(TargetOf(id), r, "supplier_name");
    PersistedLookup(TargetOf(id), r, "supplier_status");
    PersistedLookup(TargetOf(id), r, "supplier_denormalized_at");
    PersistedLookup(TargetOf(id), r, "id");
  }

  /** The raw status 2 is cached as its label, alongside the name and the write time. */
  lemma EnumValueIsTranslated()
    ensures Valid(SupplierColumns)
    ensures var after := Persisted(TargetOf(7), Project(Supplier, SupplierColumns, Acme, TargetOf(7), 42));
      && "supplier_status" in after.attrs && after.attrs["supplier_status"] == Str("closed")
      && "supplier_name" in after.attrs && after.attrs["supplier_name"] == Str("Acme")
      && "supplier_denormalized_at" in after.attrs && after.attrs["supplier_denormalized_at"] == Time(42)
      && "id" in after.attrs && after.attrs["id"] == Int(100)
  {
    assert Acme.attrs["status"] == Int(2) && Acme.attrs["name"] == Str("Acme");
    SupplierPersisted(Acme, 7);
  }

  /** Projecting supplier 2 caches its id and name. */
  lemma SecondIsCached()
    ensures Valid(SupplierColumns)
    ensures var after := Persisted(TargetOf(1), Project(Supplier, SupplierColumns, Second, TargetOf(1), 42));
      && "supplier_id" in after.attrs && after.attrs["supplier_id"] == Int(2)
      && "supplier_name" in after.attrs && after.attrs["supplier_name"] == Str("B")
  {
    assert Second.attrs["status"] == Int(1) && Second.attrs["id"] == Int(2) && Second.attrs["name"] == Str("B");
    SupplierPersisted(Second, 1);
  }

  /** The raw status 5 has no label: the projection raises the enum miss and
      nothing is written. */
  lemma UnknownEnumValueWritesNothing()
    ensures Valid(SupplierColumns)
    ensures Project(Supplier, SupplierColumns, AcmeUnlabelled, TargetOf(7), 42) == Err(KeyError("status", Int(5)))
    ensures Persisted(TargetOf(7), Project(Supplier, SupplierColumns, AcmeUnlabelled, TargetOf(7), 42)) == TargetOf(7)
  {
    var src := AcmeUnlabelled;
    SupplierColumnsValid();
    SupplierTargeted(7);
    EnumMissLeavesTargetUnchanged(Supplier, SupplierColumns, src, TargetOf(7), 42, "supplier_status");
    ProjectRaisesFirstError(Supplier, SupplierColumns, src, TargetOf(7), 42);
    var r := Project(Supplier, SupplierColumns, src, TargetOf(7), 42);
    var k :| k in Targeted(SupplierColumns, TargetOf(7))
      && ValueFor(Supplier, src, SupplierColumns.columnOf[k], 42) == Err(r.error);
    OnlyStatusRaises(src, k);
  }

  /** Destroying the current supplier 1 promotes supplier 2, the newest of the
      others, and the target's cached id becomes 2. */
  lemma DestroyPromotesNewestSibling()
    ensures Valid(SupplierColumns)
    ensures var after := Persisted(TargetOf(1),
              BeforeDestroy(Supplier, SupplierColumns, First, Some(TargetOf(1)), [First, Second, Third], AllRecords, 42));
      && "supplier_id" in after.attrs && after.attrs["supplier_id"] == Int(2)
      && "supplier_name" in after.attrs && after.attrs["supplier_name"] == Str("B")
  {
    SupplierColumnsValid();
    DestroyChoosesSecond();
    SecondIsCached();
  }

  /** Of supplier 1's siblings, supplier 2 is the newest, so it is the one projected. */
  lemma DestroyChoosesSecond()
    ensures Valid(SupplierColumns)
    ensures BeforeDestroy(Supplier, SupplierColumns, First, Some(TargetOf(1)), [First, Second, Third], AllRecords, 42)
         == Project(Supplier, SupplierColumns, Second, TargetOf(1), 42)
  {
    SupplierColumnsValid();
    assert ForeignKeyColumn(Supplier) == "supplier_id";
    assert Current(Supplier, First, TargetOf(1));
    forall x | x in [First, Second, Third] && IsReplacement(Supplier, AllRecords, Int(1), x) && x != Second
      ensures x.createdAt < Second.createdAt
    {
    }
    DestroyProjectsUniqueNewest(Supplier, SupplierColumns, First, TargetOf(1), [First, Second, Third], AllRecords, 42, Second);
  }

  /** Of the four mapped columns, only `status` can raise for a full supplier row. */
  lemma OnlyStatusRaises(src: Record, k: string)
    requires "id" in src.attrs && "name" in src.attrs && "status" in src.attrs
    requires k in SupplierColumns.columnOf
    requires ValueFor(Supplier, src, SupplierColumns.columnOf[k], 42).Err?
    ensures k == "supplier_status"
    ensures ValueFor(Supplier, src, SupplierColumns.columnOf[k], 42) == Err(KeyError("status", src.attrs["status"]))
  {
  }

  /** Updating supplier 2 while the target caches supplier 1 writes nothing. */
  lemma UpdateOfOtherSupplierIsNoOp()
    ensures Valid(SupplierColumns)
    ensures AfterUpdateCommit(Supplier, SupplierColumns, Second, Some(TargetOf(1)), 42) == Ok(NoWrite)
  {
    SupplierColumnsValid();
    assert ForeignKeyColumn(Supplier) == "supplier_id";
    assert IdsReadable(Supplier, Second, TargetOf(1)) && !Current(Supplier, Second, TargetOf(1));
  }
}
