/**
 The projector (`source.denormalize(target)`) and the clearer
 (`target.clear_denormalized_{prefix}`): both touch exactly the denormalized
 columns the target's table actually has.
 */
module Projector {
  import opened Records
  import opened ColumnMapping

  /** `keys & columns`: the keys that are columns, in the order of `keys`. */
  function Intersect(keys: seq<string>, columns: set<Column>): (r: seq<string>)
    ensures forall k :: k in r <==> k in keys && k in columns
  {
    if keys == [] then []
    else (if keys[0] in columns then [keys[0]] else []) + Intersect(keys[1..], columns)
  }

  /** `a` occurs in `s` at an earlier position than `b`. */
  ghost predicate Precedes<T>(s: seq<T>, a: T, b: T)
  {
    exists p, q :: 0 <= p < q < |s| && s[p] == a && s[q] == b
  }

  /** An order within the tail of a sequence is an order within the sequence. */
  lemma PrecedesInTail<T>(s: seq<T>, a: T, b: T)
    requires |s| > 0 && Precedes(s[1..], a, b)
    ensures Precedes(s, a, b)
  {
    var p, q :| 0 <= p < q < |s[1..]| && s[1..][p] == a && s[1..][q] == b;
    assert s[p + 1] == a && s[q + 1] == b;
  }

  /** The head of a sequence precedes every element of its tail. */
  lemma HeadPrecedes<T>(s: seq<T>, b: T)
    requires |s| > 0 && b in s[1..]
    ensures Precedes(s, s[0], b)
  {
    var q :| 0 <= q < |s[1..]| && s[1..][q] == b;
    assert s[q + 1] == b;
  }

  /** `Array#&` keeps the order of its receiver: the result lists its elements
      in the order in which they occur in `keys`. */
  lemma {:induction false} IntersectKeepsOrder(keys: seq<string>, columns: set<Column>)
    ensures forall i, j :: 0 <= i < j < |Intersect(keys, columns)| ==>
      Precedes(keys, Intersect(keys, columns)[i], Intersect(keys, columns)[j])
  {
    if keys != [] {
      var tail := keys[1..];
      var rest := Intersect(tail, columns);
      IntersectKeepsOrder(tail, columns);
      var r := Intersect(keys, columns);
      var head: seq<string> := if keys[0] in columns then [keys[0]] else [];
      assert r == head + rest;
      forall i, j | 0 <= i < j < |r|
        ensures Precedes(keys, r[i], r[j])
      {
        if i < |head| {
          assert r[i] == keys[0];
          assert r[j] == rest[j - |head|];
          HeadPrecedes(keys, r[j]);
        } else {
          assert r[i] == rest[i - |head|] && r[j] == rest[j - |head|];
          assert Precedes(tail, rest[i - |head|], rest[j - |head|]);
          PrecedesInTail(keys, r[i], r[j]);
        }
      }
    }
  }

  /** `Array#&` drops repeats: from keys without repeats it keeps none. */
  lemma {:induction false} IntersectKeepsDistinct(keys: seq<string>, columns: set<Column>)
    requires Distinct(keys)
    ensures Distinct(Intersect(keys, columns))
  {
    if keys != [] {
      var tail := keys[1..];
      var rest := Intersect(tail, columns);
      assert Distinct(tail) by {
        forall i, j | 0 <= i < j < |tail| ensures tail[i] != tail[j] {
          assert tail[i] == keys[i + 1] && tail[j] == keys[j + 1];
        }
      }
      IntersectKeepsDistinct(tail, columns);
      assert keys[0] !in tail by {
        forall q | 0 <= q < |tail| ensures tail[q] != keys[0] {
          assert tail[q] == keys[q + 1];
        }
      }
      var r := Intersect(keys, columns);
      var head: seq<string> := if keys[0] in columns then [keys[0]] else [];
      assert r == head + rest;
      forall i, j | 0 <= i < j < |r|
        ensures r[i] != r[j]
      {
        if i < |head| {
          assert r[j] == rest[j - |head|] && r[j] in tail;
        } else {
          assert r[i] == rest[i - |head|] && r[j] == rest[j - |head|];
        }
      }
    }
  }

  /** The mapping's keys that are columns of the target, in mapping order and
      each once. */
  function DenormalizedColumns(mapping: Mapping, target: Record): (ks: seq<string>)
    requires Valid(mapping)
    ensures forall k :: k in ks <==> k in Targeted(mapping, target)
    ensures Distinct(ks)
    ensures forall i, j :: 0 <= i < j < |ks| ==> Precedes(mapping.keys, ks[i], ks[j])
  {
    IntersectKeepsOrder(mapping.keys, target.attrs.Keys);
    IntersectKeepsDistinct(mapping.keys, target.attrs.Keys);
    Intersect(mapping.keys, target.attrs.Keys)
  }

  /** The same columns, as a set: the only columns a projection or a clear writes. */
  ghost function Targeted(mapping: Mapping, target: Record): set<string>
  {
    mapping.columnOf.Keys * target.attrs.Keys
  }

  /** The value cached for the mapped source `column`: the write time for the
      sentinel, otherwise the source's attribute, translated through the
      column's enum table when it has one. */
  function ValueFor(st: SourceType, src: Record, column: Column, now: int): Result<Value>
  {
    if column == TimestampSentinel then Ok(Time(now))
    else
      var v :- Read(src, column);
      if column !in st.enums then Ok(v)
      else if v in st.enums[column] then Ok(st.enums[column][v])
      else Err(KeyError(column, v))
  }

  /** True when reading the mapped source `column` raises. */
  ghost predicate Rejects(st: SourceType, src: Record, column: Column)
  {
    && column != TimestampSentinel
    && (column !in src.attrs || (column in st.enums && src.attrs[column] !in st.enums[column]))
  }

  lemma ValueForRejects(st: SourceType, src: Record, now: int)
    ensures forall column :: ValueFor(st, src, column, now).Err? <==> Rejects(st, src, column)
  {
  }

  lemma ValueForValues(st: SourceType, src: Record, now: int)
    ensures forall column :: ValueFor(st, src, column, now).Ok? ==>
      var v := ValueFor(st, src, column, now).value;
      if column == TimestampSentinel then v == Time(now)
      else
        && column in src.attrs
        && (column !in st.enums ==> v == src.attrs[column])
        && (column in st.enums ==> src.attrs[column] in st.enums[column] && v == st.enums[column][src.attrs[column]])
  {
  }

  /** `denormalized_columns.to_h { ... }`: the attribute hash, built key by
      key in order, raising at the first key whose value raises. */
  function Attributes(st: SourceType, mapping: Mapping, src: Record, ks: seq<string>, now: int)
    : (r: Result<map<string, Value>>)
    requires forall k :: k in ks ==> k in mapping.columnOf
    ensures r.Ok? ==> r.value.Keys == set k | k in ks
    ensures r.Ok? ==> forall k :: k in ks ==> ValueFor(st, src, mapping.columnOf[k], now) == Ok(r.value[k])
    ensures r.Err? <==> exists k :: k in ks && ValueFor(st, src, mapping.columnOf[k], now).Err?
  {
    if ks == [] then Ok(map[])
    else
      var v :- ValueFor(st, src, mapping.columnOf[ks[0]], now);
      var rest :- Attributes(st, mapping, src, ks[1..], now);
      Ok(rest[ks[0] := v])
  }

  /** The error raised is the one of the first key whose value raises: every
      earlier key reads successfully. */
  lemma {:induction false} AttributesRaiseFirstError(st: SourceType, mapping: Mapping, src: Record, ks: seq<string>, now: int)
    requires forall k :: k in ks ==> k in mapping.columnOf
    ensures var r := Attributes(st, mapping, src, ks, now);
      r.Err? ==>
        exists i :: 0 <= i < |ks|
          && ValueFor(st, src, mapping.columnOf[ks[i]], now) == Err(r.error)
          && forall j :: 0 <= j < i ==> ValueFor(st, src, mapping.columnOf[ks[j]], now).Ok?
  {
    var r := Attributes(st, mapping, src, ks, now);
    if ks != [] && r.Err? {
      if ValueFor(st, src, mapping.columnOf[ks[0]], now).Err? {
        assert ValueFor(st, src, mapping.columnOf[ks[0]], now) == Err(r.error);
      } else {
        var tail := ks[1..];
        AttributesRaiseFirstError(st, mapping, src, tail, now);
        var i :| 0 <= i < |tail|
          && ValueFor(st, src, mapping.columnOf[tail[i]], now) == Err(r.error)
          && forall j :: 0 <= j < i ==> ValueFor(st, src, mapping.columnOf[tail[j]], now).Ok?;
        assert ks[i + 1] == tail[i];
        forall j | 0 <= j < i + 1
          ensures ValueFor(st, src, mapping.columnOf[ks[j]], now).Ok?
        {
          if j > 0 { assert ks[j] == tail[j - 1]; }
        }
      }
    }
  }

  /** `source.denormalize(target)`, with `mapping` the source model's
      `denormalized_column_mapping`: the update it issues, or the error it
      raises first. */
  function Project(st: SourceType, mapping: Mapping, src: Record, target: Record, now: int): (r: Result<Write>)
    requires Valid(mapping)
    ensures r == Ok(NoWrite) <==> Targeted(mapping, target) == {}
    ensures r.Ok? && r.value.Update? ==> r.value.attrs.Keys == Targeted(mapping, target)
    ensures r.Err? <==> exists k :: k in Targeted(mapping, target) && Rejects(st, src, mapping.columnOf[k])
  {
    var ks := DenormalizedColumns(mapping, target);
    var attributes := Attributes(st, mapping, src, ks, now);
    ValueForRejects(st, src, now);
    if attributes.Err? then
      Err(attributes.error)
    else if attributes.value == map[] then
      assert forall k :: k in ks ==> k in attributes.value.Keys;
      Ok(NoWrite)
    else
      Ok(Update(attributes.value))
  }

  /** What the update writes: the write time into the sentinel's column, and
      into every other targeted column the source's value, translated through
      the column's enum table when it has one. */
  lemma ProjectedValues(st: SourceType, mapping: Mapping, src: Record, target: Record, now: int, k: string)
    requires Valid(mapping)
    ensures var r := Project(st, mapping, src, target, now);
      r.Ok? && r.value.Update? && k in r.value.attrs ==>
        var column := mapping.columnOf[k];
        if column == TimestampSentinel then r.value.attrs[k] == Time(now)
        else
          && column in src.attrs
          && (column !in st.enums ==> r.value.attrs[k] == src.attrs[column])
          && (column in st.enums ==>
                && src.attrs[column] in st.enums[column]
                && r.value.attrs[k] == st.enums[column][src.attrs[column]])
  {
    ValueForValues(st, src, now);
  }

  /** The error raised is the one of the first targeted column, in mapping
      order, that raises; every targeted column before it reads successfully. */
  lemma ProjectRaisesFirstError(st: SourceType, mapping: Mapping, src: Record, target: Record, now: int)
    requires Valid(mapping)
    ensures var r := Project(st, mapping, src, target, now);
      r.Err? ==> exists k :: k in Targeted(mapping, target) && ValueFor(st, src, mapping.columnOf[k], now) == Err(r.error)
    ensures var r := Project(st, mapping, src, target, now);
      var ks := DenormalizedColumns(mapping, target);
      r.Err? ==>
        exists i :: 0 <= i < |ks|
          && ValueFor(st, src, mapping.columnOf[ks[i]], now) == Err(r.error)
          && forall j :: 0 <= j < i ==> ValueFor(st, src, mapping.columnOf[ks[j]], now).Ok?
  {
    AttributesRaiseFirstError(st, mapping, src, DenormalizedColumns(mapping, target), now);
  }

  /** Projection rewrites only the targeted columns: the target keeps its column
      set, its creation time and every other column's value, whatever happens.
      The creation time is kept by construction, since an `Update` carries
      attributes only; the clause is there so that callers need not unfold
      `Persisted`. */
  lemma ProjectionFrame(st: SourceType, mapping: Mapping, src: Record, target: Record, now: int)
    requires Valid(mapping)
    ensures var after := Persisted(target, Project(st, mapping, src, target, now));
      && after.attrs.Keys == target.attrs.Keys
      && after.createdAt == target.createdAt
      && forall c :: c in target.attrs && c !in Targeted(mapping, target) ==> after.attrs[c] == target.attrs[c]
  {
  }

  /** A targeted enum column whose value has no entry in its table aborts the
      projection before any update, so the target is left as it was. */
  lemma EnumMissLeavesTargetUnchanged(st: SourceType, mapping: Mapping, src: Record, target: Record, now: int, k: string)
    requires Valid(mapping)
    requires k in Targeted(mapping, target)
    requires var column := mapping.columnOf[k];
      && column != TimestampSentinel
      && column in src.attrs
      && column in st.enums
      && src.attrs[column] !in st.enums[column]
    ensures Project(st, mapping, src, target, now).Err?
    ensures Persisted(target, Project(st, mapping, src, target, now)) == target
  {
    assert Rejects(st, src, mapping.columnOf[k]);
  }

  /** `clear_denormalized_{prefix}`: one `update!` setting every targeted
      column to nil; it is issued even when no column is targeted. */
  function ClearDenormalized(mapping: Mapping, target: Record): (w: Write)
    requires Valid(mapping)
    ensures w.Update?
    ensures w.attrs.Keys == Targeted(mapping, target)
    ensures forall k :: k in w.attrs ==> w.attrs[k] == Nil
  {
    var ks := DenormalizedColumns(mapping, target);
    Update(map k | k in ks :: Nil)
  }

  /** Clearing leaves every other column alone, and clearing a cleared target
      changes nothing. */
  lemma ClearIsIdempotent(mapping: Mapping, target: Record)
    requires Valid(mapping)
    ensures var once := Apply(target, ClearDenormalized(mapping, target));
      && once.attrs.Keys == target.attrs.Keys
      && (forall c :: c in target.attrs && c !in Targeted(mapping, target) ==> once.attrs[c] == target.attrs[c])
      && Apply(once, ClearDenormalized(mapping, once)) == once
  {
    var once := Apply(target, ClearDenormalized(mapping, target));
    assert Targeted(mapping, once) == Targeted(mapping, target);
  }
}
