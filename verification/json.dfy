/**
 The part of the cJSON library the monitor relies on: a parsed document,
 object member lookup and the two type tests applied to looked-up items.
 Parsing itself is not modelled; its outcome is an `Option<Json>`.
 */
module Json {
  import opened Wrappers

  /** A parsed JSON value. `JNum` carries the integer view of a number
      (the `valueint` of a cJSON item). */
  datatype Json =
    | JNull
    | JBool(b: bool)
    | JNum(n: int)
    | JStr(s: string)
    | JArr(items: seq<Json>)
    | JObj(fields: seq<(string, Json)>)

  /** No member of `fields` before index `i` has the name `key`. */
  predicate AbsentBefore(fields: seq<(string, Json)>, key: string, i: nat)
    requires i <= |fields|
  {
    forall j :: 0 <= j < i ==> fields[j].0 != key
  }

  /** No member of `fields` has the name `key`. */
  predicate Absent(fields: seq<(string, Json)>, key: string)
  {
    AbsentBefore(fields, key, |fields|)
  }

  /** `v` is the value of the first member of `fields` named `key`. */
  ghost predicate IsFirstMember(fields: seq<(string, Json)>, key: string, v: Json)
  {
    exists i :: 0 <= i < |fields| && fields[i] == (key, v) && AbsentBefore(fields, key, i)
  }

  /** Member lookup in an object's member list: the first member whose name
      is `key`, or `None` when there is none. */
  function Lookup(fields: seq<(string, Json)>, key: string): (r: Option<Json>)
  {
    if |fields| == 0 then None
    else if fields[0].0 == key then Some(fields[0].1)
    else Lookup(fields[1..], key)
  }

  /** `Lookup` finds exactly the first member with the given name. */
  lemma {:induction false} LookupIsFirstMember(fields: seq<(string, Json)>, key: string, v: Json)
    ensures Lookup(fields, key) == Some(v) <==> IsFirstMember(fields, key, v)
    decreases |fields|
  {
    if |fields| == 0 {
    } else if fields[0].0 == key {
      if IsFirstMember(fields, key, v) {
        var i :| 0 <= i < |fields| && fields[i] == (key, v) && AbsentBefore(fields, key, i);
        assert i == 0;
      }
      if Lookup(fields, key) == Some(v) {
        assert fields[0] == (key, v) && AbsentBefore(fields, key, 0);
      }
    } else {
      var tail := fields[1..];
      LookupIsFirstMember(tail, key, v);
      if IsFirstMember(fields, key, v) {
        var i :| 0 <= i < |fields| && fields[i] == (key, v) && AbsentBefore(fields, key, i);
        assert i > 0;
        assert tail[i - 1] == (key, v);
        assert AbsentBefore(tail, key, i - 1) by {
          forall j | 0 <= j < i - 1 ensures tail[j].0 != key {
            assert tail[j] == fields[j + 1];
          }
        }
      }
      if IsFirstMember(tail, key, v) {
        var i :| 0 <= i < |tail| && tail[i] == (key, v) && AbsentBefore(tail, key, i);
        assert fields[i + 1] == (key, v);
        assert AbsentBefore(fields, key, i + 1) by {
          forall j | 0 <= j < i + 1 ensures fields[j].0 != key {
            if j > 0 {
              assert fields[j] == tail[j - 1];
            }
          }
        }
      }
    }
  }

  /** `Lookup` finds nothing exactly when no member has the given name. */
  lemma {:induction false} LookupNoneIsAbsent(fields: seq<(string, Json)>, key: string)
    ensures Lookup(fields, key).None? <==> Absent(fields, key)
    decreases |fields|
  {
    if |fields| > 0 && fields[0].0 != key {
      var tail := fields[1..];
      LookupNoneIsAbsent(tail, key);
      if Absent(tail, key) {
        forall j | 0 <= j < |fields| ensures fields[j].0 != key {
          if j > 0 {
            assert fields[j] == tail[j - 1];
          }
        }
      }
      if Absent(fields, key) {
        forall j | 0 <= j < |tail| ensures tail[j].0 != key {
          assert tail[j] == fields[j + 1];
        }
      }
    }
  }

  /** `cJSON_GetObjectItem`: the member `key` of `item` when `item` is an
      object that has one, and NULL when `item` is NULL, is not an object,
      or has no such member. */
  function GetObjectItem(item: Option<Json>, key: string): (r: Option<Json>)
  {
    match item
    case Some(JObj(fields)) =>
      Lookup(fields, key)
    case _ => None
  }

  /** The declarative reading of member lookup: `item` is the member `key`
      of `doc` exactly when `doc` is an object whose first member of that name
      holds it, and `item` is NULL exactly when `doc` is NULL, is not an
      object, or has no member of that name. */
  ghost predicate Member(doc: Option<Json>, key: string, item: Option<Json>)
  {
    match item
    case Some(v) => doc.Some? && doc.value.JObj? && IsFirstMember(doc.value.fields, key, v)
    case None => !(doc.Some? && doc.value.JObj?) || Absent(doc.value.fields, key)
  }

  /** `GetObjectItem` returns exactly the item `Member` describes. */
  lemma GetObjectItemIsMember(doc: Option<Json>, key: string, item: Option<Json>)
    ensures GetObjectItem(doc, key) == item <==> Member(doc, key, item)
  {
    if doc.Some? && doc.value.JObj? {
      LookupNoneIsAbsent(doc.value.fields, key);
      if item.Some? {
        LookupIsFirstMember(doc.value.fields, key, item.value);
      }
    }
  }

  /** `cJSON_IsNumber`: a non-NULL number item. */
  predicate IsNumber(item: Option<Json>)
  {
    item.Some? && item.value.JNum?
  }

  /** `cJSON_IsTrue`: a non-NULL item holding the literal `true`. */
  predicate IsTrue(item: Option<Json>)
  {
    item == Some(JBool(true))
  }

  /** The member list `fields` with the member `key` set to `v`: the first
      member of that name is replaced, or the member is appended when there is
      none. This is how one key of a configuration message is changed. */
  function Upsert(fields: seq<(string, Json)>, key: string, v: Json): (r: seq<(string, Json)>)
    ensures Lookup(r, key) == Some(v)
    ensures forall k :: k != key ==> Lookup(r, k) == Lookup(fields, k)
  {
    if |fields| == 0 then [(key, v)]
    else if fields[0].0 == key then [(key, v)] + fields[1..]
    else [fields[0]] + Upsert(fields[1..], key, v)
  }

  /** The member list `fields` with every member named `key` removed. */
  function Remove(fields: seq<(string, Json)>, key: string): (r: seq<(string, Json)>)
    ensures Lookup(r, key) == None
    ensures forall k :: k != key ==> Lookup(r, k) == Lookup(fields, k)
  {
    if |fields| == 0 then []
    else if fields[0].0 == key then Remove(fields[1..], key)
    else [fields[0]] + Remove(fields[1..], key)
  }
}
