/**
 The mapping resolver: which target column caches which source column.
 Every source column `c` is cached in the target column `{prefix}_{c}`, and the
 target column `{prefix}_denormalized_at` receives the time of the write.
 */
module ColumnMapping {
  import opened Records

  /** The mapped "column" that stands for the write time rather than a source column. */
  const TimestampSentinel: Column := "denormalized_at"

  /** The target column that caches `column` of a source with the given prefix. */
  function ColumnKey(prefix: string, column: Column): string
  {
    prefix + "_" + column
  }

  /** Distinct source columns get distinct target columns. */
  lemma ColumnKeysInjective(prefix: string, a: Column, b: Column)
    requires ColumnKey(prefix, a) == ColumnKey(prefix, b)
    ensures a == b
  {
    assert ColumnKey(prefix, a)[|prefix| + 1..] == a;
    assert ColumnKey(prefix, b)[|prefix| + 1..] == b;
  }

  /** An insertion-ordered hash from target column to mapped source column:
      `keys` lists the hash's keys in insertion order. */
  datatype Mapping = Mapping(keys: seq<string>, columnOf: map<string, Column>)

  ghost predicate Distinct<T>(s: seq<T>)
  {
    forall i, j :: 0 <= i < j < |s| ==> s[i] != s[j]
  }

  ghost predicate Valid(m: Mapping)
  {
    && Distinct(m.keys)
    && forall k :: k in m.keys <==> k in m.columnOf
  }

  /** `hash[key] = column`: a new key goes last, an existing key keeps its place. */
  function Insert(m: Mapping, key: string, column: Column): (r: Mapping)
    requires Valid(m)
    ensures Valid(r)
    ensures r.columnOf == m.columnOf[key := column]
    ensures key in m.columnOf ==> r.keys == m.keys
    ensures key !in m.columnOf ==> r.keys == m.keys + [key]
  {
    if key in m.columnOf then Mapping(m.keys, m.columnOf[key := column])
    else Mapping(m.keys + [key], m.columnOf[key := column])
  }

  /** `keys` lists `{prefix}_{c}` for the columns `c`, position by position. */
  ghost predicate KeysFollow(prefix: string, columns: seq<Column>, keys: seq<string>)
  {
    |keys| == |columns| && forall i :: 0 <= i < |columns| ==> keys[i] == ColumnKey(prefix, columns[i])
  }

  /** `columns.index_by { |c| "#{prefix}_#{c}" }`, inserting left to right. */
  function IndexBy(prefix: string, columns: seq<Column>): (m: Mapping)
    ensures Valid(m)
    ensures m.columnOf.Keys == set c | c in columns :: ColumnKey(prefix, c)
    ensures forall c :: c in columns ==> m.columnOf[ColumnKey(prefix, c)] == c
    ensures Distinct(columns) ==> KeysFollow(prefix, columns, m.keys)
    decreases |columns|
  {
    if columns == [] then Mapping([], map[])
    else
      var front := columns[..|columns| - 1];
      var last := columns[|columns| - 1];
      assert columns == front + [last];
      IndexOneMore(prefix, front, last, IndexBy(prefix, front));
      IndexOneMoreInOrder(prefix, front, last, IndexBy(prefix, front));
      Insert(IndexBy(prefix, front), ColumnKey(prefix, last), last)
  }

  /** Indexing one more column adds its key and leaves the other keys' columns alone. */
  lemma IndexOneMore(prefix: string, front: seq<Column>, last: Column, init: Mapping)
    requires Valid(init)
    requires init.columnOf.Keys == set c | c in front :: ColumnKey(prefix, c)
    requires forall c :: c in front ==> init.columnOf[ColumnKey(prefix, c)] == c
    ensures var m := Insert(init, ColumnKey(prefix, last), last);
      && m.columnOf.Keys == (set c | c in front + [last] :: ColumnKey(prefix, c))
      && forall c :: c in front + [last] ==> m.columnOf[ColumnKey(prefix, c)] == c
  {
    var m := Insert(init, ColumnKey(prefix, last), last);
    forall c | c in front
      ensures m.columnOf[ColumnKey(prefix, c)] == c
    {
      if ColumnKey(prefix, c) == ColumnKey(prefix, last) {
        ColumnKeysInjective(prefix, c, last);
      }
    }
  }

  /** A column not indexed before has its key appended last, so with distinct
      columns the keys stay in column order. */
  lemma IndexOneMoreInOrder(prefix: string, front: seq<Column>, last: Column, init: Mapping)
    requires Valid(init)
    requires init.columnOf.Keys == set c | c in front :: ColumnKey(prefix, c)
    requires Distinct(front) ==> KeysFollow(prefix, front, init.keys)
    ensures Distinct(front + [last]) ==> KeysFollow(prefix, front + [last], Insert(init, ColumnKey(prefix, last), last).keys)
  {
    var columns := front + [last];
    if Distinct(columns) {
      DistinctFront(columns);
      assert columns[..|columns| - 1] == front;
      forall c | c in front
        ensures ColumnKey(prefix, c) != ColumnKey(prefix, last)
      {
        if ColumnKey(prefix, c) == ColumnKey(prefix, last) {
          ColumnKeysInjective(prefix, c, last);
          assert false;
        }
      }
      assert Insert(init, ColumnKey(prefix, last), last).keys == init.keys + [ColumnKey(prefix, last)];
    }
  }

  /** Dropping the last element keeps a sequence distinct, and the dropped
      element is not among the rest. */
  lemma DistinctFront<T>(s: seq<T>)
    requires |s| > 0 && Distinct(s)
    ensures Distinct(s[..|s| - 1]) && s[|s| - 1] !in s[..|s| - 1]
  {
  }

  /** The denormalized column mapping of a source type. */
  function DenormalizedColumnMapping(st: SourceType): (m: Mapping)
    ensures Valid(m)
    ensures m.columnOf.Keys
         == (set c | c in st.columnNames :: ColumnKey(st.prefix, c)) + {ColumnKey(st.prefix, TimestampSentinel)}
    ensures forall c :: c in st.columnNames ==> m.columnOf[ColumnKey(st.prefix, c)] == c
    ensures m.columnOf[ColumnKey(st.prefix, TimestampSentinel)] == TimestampSentinel
    ensures forall k :: k in m.columnOf ==> m.columnOf[k] in st.columnNames || m.columnOf[k] == TimestampSentinel
  {
    var m := Insert(IndexBy(st.prefix, st.columnNames), ColumnKey(st.prefix, TimestampSentinel), TimestampSentinel);
    forall c | c in st.columnNames
      ensures m.columnOf[ColumnKey(st.prefix, c)] == c
    {
      if ColumnKey(st.prefix, c) == ColumnKey(st.prefix, TimestampSentinel) {
        ColumnKeysInjective(st.prefix, c, TimestampSentinel);
      }
    }
    m
  }

  /** With distinct source columns, the keys follow `column_names` order and
      the sentinel's key comes last, unless a source column is itself named
      `denormalized_at`, in which case that column's key keeps its place. */
  lemma ResolvedKeyOrder(st: SourceType)
    requires Distinct(st.columnNames)
    ensures var m := DenormalizedColumnMapping(st);
      && |m.keys| == |st.columnNames| + (if TimestampSentinel in st.columnNames then 0 else 1)
      && (forall i :: 0 <= i < |st.columnNames| ==> m.keys[i] == ColumnKey(st.prefix, st.columnNames[i]))
      && (TimestampSentinel !in st.columnNames ==> m.keys[|st.columnNames|] == ColumnKey(st.prefix, TimestampSentinel))
  {
    var idx := IndexBy(st.prefix, st.columnNames);
    SentinelKeyIsNew(st.prefix, st.columnNames);
    assert DenormalizedColumnMapping(st).keys
        == Insert(idx, ColumnKey(st.prefix, TimestampSentinel), TimestampSentinel).keys;
    assert KeysFollow(st.prefix, st.columnNames, idx.keys);
  }

  /** The sentinel's key is already indexed exactly when a source column is
      named `denormalized_at`. */
  lemma SentinelKeyIsNew(prefix: string, columns: seq<Column>)
    ensures ColumnKey(prefix, TimestampSentinel) in IndexBy(prefix, columns).columnOf
        <==> TimestampSentinel in columns
  {
    var key := ColumnKey(prefix, TimestampSentinel);
    if key in IndexBy(prefix, columns).columnOf {
      var c :| c in columns && ColumnKey(prefix, c) == key;
      ColumnKeysInjective(prefix, c, TimestampSentinel);
    }
  }

  /** The class-level memo `@denormalized_column_mapping ||= ...`. */
  datatype Cache = Cold | Warm(mapping: Mapping)

  /** Looks the mapping up through the memo, returning it and the memo afterwards. */
  function CachedMapping(cache: Cache, st: SourceType): (Mapping, Cache)
  {
    match cache
    case Warm(m) => (m, cache)
    case Cold =>
      var m := DenormalizedColumnMapping(st);
      (m, Warm(m))
  }

  /** The first lookup builds the mapping; every later lookup returns that
      identical mapping and leaves the memo as it is. */
  lemma CachedMappingIsStable(st: SourceType, st': SourceType)
    ensures var (first, cache) := CachedMapping(Cold, st);
            && first == DenormalizedColumnMapping(st)
            && CachedMapping(cache, st') == (first, cache)
  {
  }
}
