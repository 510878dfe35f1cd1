/**
 The lifecycle callbacks a `belongs_to ..., denormalize: true` association
 installs on the source model: project after create and after update, and pick
 a replacement (or clear the target) before a current source is destroyed.
 A source is "current" for a target when the target's `{prefix}_{pk}` column
 holds the source's primary key.
 */
module Callbacks {
  import opened Records
  import opened ColumnMapping
  import opened Projector

  /** The target column caching the source's primary key. */
  function ForeignKeyColumn(st: SourceType): Column
  {
    ColumnKey(st.prefix, st.primaryKey)
  }

  /** Both ids can be read: the source has its primary key, the target the column caching it. */
  ghost predicate IdsReadable(st: SourceType, src: Record, target: Record)
  {
    st.primaryKey in src.attrs && ForeignKeyColumn(st) in target.attrs
  }

  /** `src` is the record currently denormalized on `target`. */
  ghost predicate Current(st: SourceType, src: Record, target: Record)
  {
    IdsReadable(st, src, target) && target.attrs[ForeignKeyColumn(st)] == src.attrs[st.primaryKey]
  }

  /** `denormalized_primary_key_id == primary_key`, reading the source's id first. */
  function IsCurrent(st: SourceType, src: Record, target: Record): Result<bool>
  {
    var id :- Read(src, st.primaryKey);
    var cached :- Read(target, ForeignKeyColumn(st));
    Ok(cached == id)
  }

  lemma IsCurrentMeaning(st: SourceType, src: Record, target: Record)
    ensures IsCurrent(st, src, target).Ok? <==> IdsReadable(st, src, target)
    ensures IsCurrent(st, src, target) == Ok(true) <==> Current(st, src, target)
  {
  }

  /** The conditions under which a projection carries the source's primary
      key unchanged into the target's foreign-key column: the mapping sends
      that column to the primary key, which is neither the sentinel nor an
      enum, and the target has the column. */
  ghost predicate KeyIsCopied(st: SourceType, mapping: Mapping, target: Record)
  {
    && ForeignKeyColumn(st) in mapping.columnOf
    && mapping.columnOf[ForeignKeyColumn(st)] == st.primaryKey
    && st.primaryKey != TimestampSentinel
    && st.primaryKey !in st.enums
    && ForeignKeyColumn(st) in target.attrs
  }

  /** The resolved mapping sends the foreign-key column to the primary key
      whenever the primary key is one of the source's columns. */
  lemma ResolvedMappingCopiesKey(st: SourceType, target: Record)
    requires st.primaryKey in st.columnNames
    requires st.primaryKey != TimestampSentinel && st.primaryKey !in st.enums
    requires ForeignKeyColumn(st) in target.attrs
    ensures KeyIsCopied(st, DenormalizedColumnMapping(st), target)
  {
  }

  /** A successful projection makes its source the current one. */
  lemma ProjectionMakesCurrent(st: SourceType, mapping: Mapping, src: Record, target: Record, now: int)
    requires Valid(mapping)
    requires KeyIsCopied(st, mapping, target)
    requires Project(st, mapping, src, target, now).Ok?
    ensures st.primaryKey in src.attrs
    ensures Current(st, src, Persisted(target, Project(st, mapping, src, target, now)))
  {
    assert ForeignKeyColumn(st) in Targeted(mapping, target);
    ProjectionFrame(st, mapping, src, target, now);
  }

  /** `after_create_commit`: project when the record opts in and has a target. */
  function AfterCreateCommit(
    st: SourceType, mapping: Mapping, src: Record, optedIn: bool, target: Option<Record>, now: int)
    : (r: Result<Write>)
    requires Valid(mapping)
    ensures !optedIn || target.None? ==> r == Ok(NoWrite)
    ensures optedIn && target.Some? ==> r == Project(st, mapping, src, target.value, now)
  {
    if optedIn && target.Some? then Project(st, mapping, src, target.value, now) else Ok(NoWrite)
  }

  /** A created record that opts in becomes the current source of its target. */
  lemma CreateMakesCurrent(st: SourceType, mapping: Mapping, src: Record, target: Record, now: int)
    requires Valid(mapping)
    requires KeyIsCopied(st, mapping, target)
    requires AfterCreateCommit(st, mapping, src, true, Some(target), now).Ok?
    ensures Current(st, src, Persisted(target, AfterCreateCommit(st, mapping, src, true, Some(target), now)))
  {
    ProjectionMakesCurrent(st, mapping, src, target, now);
  }

  /** `after_update_commit`: re-project only while the updated record is current. */
  function AfterUpdateCommit(st: SourceType, mapping: Mapping, src: Record, target: Option<Record>, now: int)
    : (r: Result<Write>)
    requires Valid(mapping)
    ensures target.None? ==> r == Ok(NoWrite)
    ensures target.Some? && !IdsReadable(st, src, target.value) ==> r.Err? && r.error.NoMethod?
    ensures target.Some? && Current(st, src, target.value) ==> r == Project(st, mapping, src, target.value, now)
    ensures target.Some? && IdsReadable(st, src, target.value) && !Current(st, src, target.value)
            ==> r == Ok(NoWrite)
    ensures r.Ok? && r.value != NoWrite ==> target.Some? && Current(st, src, target.value)
  {
    match target
    case None => Ok(NoWrite)
    case Some(t) =>
      IsCurrentMeaning(st, src, t);
      var current :- IsCurrent(st, src, t);
      if current then Project(st, mapping, src, t, now) else Ok(NoWrite)
  }

  /** Updating a record that is not the current one leaves the target untouched,
      whether the id comparison is false or raises because an id is missing. */
  lemma UpdateOfStaleSourceIsNoOp(st: SourceType, mapping: Mapping, src: Record, target: Record, now: int)
    requires Valid(mapping)
    requires !Current(st, src, target)
    ensures Persisted(target, AfterUpdateCommit(st, mapping, src, Some(target), now)) == target
  {
  }

  /** A sibling the destroy callback may promote: in the `denormalize` scope,
      with a primary key other than the destroyed record's. */
  ghost predicate IsReplacement(st: SourceType, eligible: Record -> bool, destroyedId: Value, r: Record)
  {
    eligible(r) && st.primaryKey in r.attrs && r.attrs[st.primaryKey] != destroyedId
  }

  /** `scope.denormalize.where.not(id: destroyed_id)`, in storage order. */
  function Replacements(st: SourceType, siblings: seq<Record>, eligible: Record -> bool, destroyedId: Value)
    : (r: seq<Record>)
    ensures forall x :: x in r <==> x in siblings && IsReplacement(st, eligible, destroyedId, x)
  {
    if siblings == [] then []
    else
      var head := siblings[0];
      var keep := eligible(head) && st.primaryKey in head.attrs && head.attrs[st.primaryKey] != destroyedId;
      (if keep then [head] else []) + Replacements(st, siblings[1..], eligible, destroyedId)
  }

  /** `.order(created_at: :desc).first`: a record with the latest creation
      time, or none when there are no records. Among equal times this picks
      the earliest in storage order; the source leaves that choice open. */
  function Newest(records: seq<Record>): (r: Option<Record>)
    ensures r.None? <==> records == []
    ensures r.Some? ==> r.value in records && forall x :: x in records ==> x.createdAt <= r.value.createdAt
  {
    if records == [] then None
    else
      match Newest(records[1..])
      case None => Some(records[0])
      case Some(best) => if best.createdAt > records[0].createdAt then Some(best) else Some(records[0])
  }

  /** `before_destroy`: when the destroyed record is current, project the
      newest replacement onto the target, or clear the target if there is none. */
  function BeforeDestroy(
    st: SourceType, mapping: Mapping, src: Record, target: Option<Record>,
    siblings: seq<Record>, eligible: Record -> bool, now: int)
    : (r: Result<Write>)
    requires Valid(mapping)
    ensures target.None? ==> r == Ok(NoWrite)
    ensures target.Some? && !IdsReadable(st, src, target.value) ==> r.Err? && r.error.NoMethod?
    ensures target.Some? && IdsReadable(st, src, target.value) && !Current(st, src, target.value)
            ==> r == Ok(NoWrite)
    ensures target.Some? && Current(st, src, target.value)
            && (forall x :: x in siblings ==> !IsReplacement(st, eligible, src.attrs[st.primaryKey], x))
            ==> r == Ok(ClearDenormalized(mapping, target.value))
    ensures target.Some? && Current(st, src, target.value)
            && (exists x :: x in siblings && IsReplacement(st, eligible, src.attrs[st.primaryKey], x))
            ==> exists c :: c in siblings
                  && IsReplacement(st, eligible, src.attrs[st.primaryKey], c)
                  && (forall x :: x in siblings && IsReplacement(st, eligible, src.attrs[st.primaryKey], x)
                                  ==> x.createdAt <= c.createdAt)
                  && r == Project(st, mapping, c, target.value, now)
  {
    match target
    case None => Ok(NoWrite)
    case Some(t) =>
      IsCurrentMeaning(st, src, t);
      var current :- IsCurrent(st, src, t);
      if !current then Ok(NoWrite)
      else
        var candidates := Replacements(st, siblings, eligible, src.attrs[st.primaryKey]);
        match Newest(candidates)
        case Some(replacement) => Project(st, mapping, replacement, t, now)
        case None => Ok(ClearDenormalized(mapping, t))
  }

  /** When one replacement is strictly newer than every other, the destroy
      callback projects exactly that one. */
  lemma DestroyProjectsUniqueNewest(
    st: SourceType, mapping: Mapping, src: Record, target: Record,
    siblings: seq<Record>, eligible: Record -> bool, now: int, newest: Record)
    requires Valid(mapping)
    requires Current(st, src, target)
    requires newest in siblings && IsReplacement(st, eligible, src.attrs[st.primaryKey], newest)
    requires forall x :: x in siblings && IsReplacement(st, eligible, src.attrs[st.primaryKey], x) && x != newest
                         ==> x.createdAt < newest.createdAt
    ensures BeforeDestroy(st, mapping, src, Some(target), siblings, eligible, now)
         == Project(st, mapping, newest, target, now)
  {
    var c :| c in siblings
      && IsReplacement(st, eligible, src.attrs[st.primaryKey], c)
      && (forall x :: x in siblings && IsReplacement(st, eligible, src.attrs[st.primaryKey], x) ==> x.createdAt <= c.createdAt)
      && BeforeDestroy(st, mapping, src, Some(target), siblings, eligible, now) == Project(st, mapping, c, target, now);
    assert newest.createdAt <= c.createdAt;
  }

  /** After a current record is destroyed and a replacement is projected, the
      target's foreign key names the replacement, so the destroyed record is no
      longer current. */
  lemma DestroyRepointsTarget(
    st: SourceType, mapping: Mapping, src: Record, target: Record,
    siblings: seq<Record>, eligible: Record -> bool, now: int)
    requires Valid(mapping)
    requires KeyIsCopied(st, mapping, target)
    requires Current(st, src, target)
    requires exists x :: x in siblings && IsReplacement(st, eligible, src.attrs[st.primaryKey], x)
    ensures var r := BeforeDestroy(st, mapping, src, Some(target), siblings, eligible, now);
      var after := Persisted(target, r);
      r.Ok? ==>
        && !Current(st, src, after)
        && exists c :: c in siblings && IsReplacement(st, eligible, src.attrs[st.primaryKey], c) && Current(st, c, after)
  {
    var c :| c in siblings
      && IsReplacement(st, eligible, src.attrs[st.primaryKey], c)
      && BeforeDestroy(st, mapping, src, Some(target), siblings, eligible, now) == Project(st, mapping, c, target, now);
    if Project(st, mapping, c, target, now).Ok? {
      ProjectionMakesCurrent(st, mapping, c, target, now);
    }
  }

  /** With no replacement, destroying the current record nils every targeted
      column, the cached foreign key included when the mapping covers it. */
  lemma DestroyWithoutReplacementClears(
    st: SourceType, mapping: Mapping, src: Record, target: Record,
    siblings: seq<Record>, eligible: Record -> bool, now: int)
    requires Valid(mapping)
    requires Current(st, src, target)
    requires forall x :: x in siblings ==> !IsReplacement(st, eligible, src.attrs[st.primaryKey], x)
    ensures var after := Persisted(target, BeforeDestroy(st, mapping, src, Some(target), siblings, eligible, now));
      && after.attrs.Keys == target.attrs.Keys
      && (forall k :: k in Targeted(mapping, target) ==> after.attrs[k] == Nil)
      && (ForeignKeyColumn(st) in mapping.columnOf ==> after.attrs[ForeignKeyColumn(st)] == Nil)
  {
    assert ForeignKeyColumn(st) in mapping.columnOf ==> ForeignKeyColumn(st) in Targeted(mapping, target);
  }
}
