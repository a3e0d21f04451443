/**
 * The pure part of `MemStorage` (Admin/server/storage.ts): records, the
 * filters the list methods apply, JavaScript `Array.prototype.slice`, the
 * paginated listing, and the records the create, update and mark-as-read
 * operations build.
 */
module StorageLists {
  import opened Wrappers
  import opened Strings
  import opened Js
  import opened OrderedMaps

  /** A stored object, property by property. Timestamps are milliseconds from a clock parameter. */
  type Record = map<string, JsValue>

  /** One `items.filter(...)` of a list method. */
  datatype Filter =
    | Includes(field: string, needle: string)   // x => x.field.includes(needle)
    | Equals(field: string, value: string)      // x => x.field === value

  predicate Passes(r: Record, f: Filter)
  {
    match f
    case Includes(field, needle) => field in r && r[field].Str? && Contains(r[field].s, needle)
    case Equals(field, value) => field in r && r[field] == Str(value)
  }

  predicate PassesAll(r: Record, fs: seq<Filter>)
  {
    forall i :: 0 <= i < |fs| ==> Passes(r, fs[i])
  }

  /** `items.filter(x => Passes(x, f))`. */
  function Keep(items: seq<Record>, f: Filter): (r: seq<Record>)
    ensures |r| <= |items|
  {
    if |items| == 0 then []
    else (if Passes(items[0], f) then [items[0]] else []) + Keep(items[1..], f)
  }

  /** The list methods' successive `if (...) items = items.filter(...)` steps. */
  function ApplyFilters(items: seq<Record>, fs: seq<Filter>): seq<Record>
    decreases |fs|
  {
    if |fs| == 0 then items else ApplyFilters(Keep(items, fs[0]), fs[1..])
  }

  /** Reference definition: the items that pass every filter at once, in their order. */
  function Select(items: seq<Record>, fs: seq<Filter>): (r: seq<Record>)
    ensures |r| <= |items|
  {
    if |items| == 0 then []
    else (if PassesAll(items[0], fs) then [items[0]] else []) + Select(items[1..], fs)
  }

  lemma {:induction false} SelectMembers(items: seq<Record>, fs: seq<Filter>, x: Record)
    ensures x in Select(items, fs) <==> x in items && PassesAll(x, fs)
  {
    if |items| > 0 {
      SelectMembers(items[1..], fs, x);
      assert items == [items[0]] + items[1..];
    }
  }

  lemma {:induction false} SelectNoFilter(items: seq<Record>)
    ensures Select(items, []) == items
  {
    if |items| > 0 {
      SelectNoFilter(items[1..]);
      assert items == [items[0]] + items[1..];
    }
  }

  lemma {:induction false} KeepThenSelect(items: seq<Record>, f: Filter, fs: seq<Filter>)
    ensures Select(Keep(items, f), fs) == Select(items, [f] + fs)
  {
    if |items| > 0 {
      KeepThenSelect(items[1..], f, fs);
      var x := items[0];
      assert PassesAll(x, [f] + fs) <==> Passes(x, f) && PassesAll(x, fs) by {
        if Passes(x, f) && PassesAll(x, fs) {
          forall i | 0 <= i < |[f] + fs| ensures Passes(x, ([f] + fs)[i]) {
            if i > 0 { assert ([f] + fs)[i] == fs[i - 1]; }
          }
        }
        if PassesAll(x, [f] + fs) {
          assert Passes(x, ([f] + fs)[0]);
          forall i | 0 <= i < |fs| ensures Passes(x, fs[i]) {
            assert ([f] + fs)[i + 1] == fs[i];
          }
        }
      }
      var rest := items[1..];
      var tail := Keep(rest, f);
      var guard := if PassesAll(x, [f] + fs) then [x] else [];
      assert Select(items, [f] + fs) == guard + Select(rest, [f] + fs);
      if Passes(x, f) {
        var kept := [x] + tail;
        assert Keep(items, f) == kept;
        assert kept[0] == x && kept[1..] == tail;
        assert Select(kept, fs) == guard + Select(tail, fs);
      } else {
        assert Keep(items, f) == tail;
        assert guard == [];
      }
    }
  }

  /** The filters are conjunctive: applying them one after another keeps exactly the items that pass all of them. */
  lemma {:induction false} FiltersConjoin(items: seq<Record>, fs: seq<Filter>)
    ensures ApplyFilters(items, fs) == Select(items, fs)
    decreases |fs|
  {
    if |fs| == 0 {
      SelectNoFilter(items);
    } else {
      FiltersConjoin(Keep(items, fs[0]), fs[1..]);
      KeepThenSelect(items, fs[0], fs[1..]);
      assert fs == [fs[0]] + fs[1..];
    }
  }

  /** `if (search)` then an `includes` filter on `field`; the default `""` adds none. */
  function SearchFilter(field: string, search: Option<string>): (fs: seq<Filter>)
    ensures fs == [] <==> search.None? || search.value == ""
  {
    if search.Some? && search.value != "" then [Includes(field, search.value)] else []
  }

  /** `if (value)` then an equality filter on `field`. */
  function MatchFilter(field: string, value: Option<string>): (fs: seq<Filter>)
    ensures fs == [] <==> value.None? || value.value == ""
  {
    if value.Some? && value.value != "" then [Equals(field, value.value)] else []
  }

  /** The record meets a list method's `search` argument (an absent or empty one lets everything through). */
  predicate SearchOk(x: Record, field: string, search: Option<string>)
  {
    search.None? || search.value == "" || Passes(x, Includes(field, search.value))
  }

  /** The record meets an equality argument such as `status` (an absent or empty one lets everything through). */
  predicate MatchOk(x: Record, field: string, value: Option<string>)
  {
    value.None? || value.value == "" || Passes(x, Equals(field, value.value))
  }

  lemma PassesAllAppend(x: Record, a: seq<Filter>, b: seq<Filter>)
    ensures PassesAll(x, a + b) <==> PassesAll(x, a) && PassesAll(x, b)
  {
    if PassesAll(x, a) && PassesAll(x, b) {
      forall i | 0 <= i < |a + b| ensures Passes(x, (a + b)[i]) {
        if i >= |a| { assert (a + b)[i] == b[i - |a|]; }
      }
    }
    if PassesAll(x, a + b) {
      forall i | 0 <= i < |a| ensures Passes(x, a[i]) {
        assert (a + b)[i] == a[i];
      }
      forall i | 0 <= i < |b| ensures Passes(x, b[i]) {
        assert (a + b)[|a| + i] == b[i];
      }
    }
  }

  lemma PassesSingle(x: Record, f: Filter)
    ensures PassesAll(x, [f]) <==> Passes(x, f)
  {
    if PassesAll(x, [f]) { assert Passes(x, [f][0]); }
  }

  /** What a `search` filter means for one record. */
  lemma SearchMeaning(x: Record, field: string, search: Option<string>)
    ensures PassesAll(x, SearchFilter(field, search)) <==> SearchOk(x, field, search)
  {
    if search.Some? && search.value != "" { PassesSingle(x, Includes(field, search.value)); }
  }

  /** What an equality filter means for one record. */
  lemma MatchMeaning(x: Record, field: string, value: Option<string>)
    ensures PassesAll(x, MatchFilter(field, value)) <==> MatchOk(x, field, value)
  {
    if value.Some? && value.value != "" { PassesSingle(x, Equals(field, value.value)); }
  }

  /** A relative `slice` index: negative counts from the end; the result is clamped to `[0, n]`. */
  function SliceIndex(x: int, n: nat): (r: nat)
    ensures r <= n
    ensures 0 <= x ==> r == if x <= n then x else n
  {
    if x < 0 then (if n + x < 0 then 0 else n + x) else if x > n then n else x
  }

  /** `s.slice(start, end)`. */
  function Slice<T>(s: seq<T>, start: int, end: int): seq<T>
  {
    var from := SliceIndex(start, |s|);
    var to := SliceIndex(end, |s|);
    if from < to then s[from..to] else []
  }

  /** A page never holds more than `limit` items, whatever the offset (negative offsets count from the end). */
  lemma PageAtMostLimit<T>(s: seq<T>, offset: int, limit: int)
    ensures limit >= 0 ==> |Slice(s, offset, offset + limit)| <= limit
    ensures forall x :: x in Slice(s, offset, offset + limit) ==> x in s
  {
  }

  /** For a non-negative offset and limit the page is the window `[offset, offset + limit)` of the items. */
  lemma PageIsWindow<T>(s: seq<T>, offset: int, limit: int)
    ensures offset >= 0 && limit >= 0 ==>
      var lo := if offset <= |s| then offset else |s|;
      var hi := if offset + limit <= |s| then offset + limit else |s|;
      Slice(s, offset, offset + limit) == s[lo..hi]
      && |Slice(s, offset, offset + limit)| <= if offset <= |s| then |s| - offset else 0
  {
  }

  lemma SelectPasses(items: seq<Record>, fs: seq<Filter>)
    ensures forall x :: x in Select(items, fs) ==> x in items && PassesAll(x, fs)
  {
    forall x | x in Select(items, fs) ensures x in items && PassesAll(x, fs) {
      SelectMembers(items, fs, x);
    }
  }

  /** `{ <items>: ..., total }` of a list method. */
  datatype Page = Page(items: seq<Record>, total: nat)

  const DefaultLimit := 50
  const DefaultOffset := 0

  /**
   * The body of every list method: filter, count, then
   * `items.slice(offset, offset + limit)` with limit 50 and offset 0 by default.
   */
  function ListPage(values: seq<Record>, fs: seq<Filter>, limit: Option<int>, offset: Option<int>): (p: Page)
    ensures p.total == |Select(values, fs)|
    ensures forall x :: x in p.items ==> x in values && PassesAll(x, fs)
    ensures limit.GetOr(DefaultLimit) >= 0 ==> |p.items| <= limit.GetOr(DefaultLimit)
    ensures var o := offset.GetOr(DefaultOffset); var l := limit.GetOr(DefaultLimit);
      o >= 0 && l >= 0 ==>
        p.items == Select(values, fs)[(if o <= p.total then o else p.total)..(if o + l <= p.total then o + l else p.total)]
        && |p.items| <= (if o <= p.total then p.total - o else 0)
  {
    var items := ApplyFilters(values, fs);
    var l := limit.GetOr(DefaultLimit);
    var o := offset.GetOr(DefaultOffset);
    FiltersConjoin(values, fs);
    SelectPasses(values, fs);
    PageAtMostLimit(items, o, l);
    PageIsWindow(items, o, l);
    Page(Slice(items, o, o + l), |items|)
  }

  /** With no filter, offset 0 and a limit that covers the table, the page is every record in insertion order. */
  lemma {:induction false} UnfilteredFirstPage(values: seq<Record>, limit: Option<int>, offset: Option<int>)
    ensures offset.GetOr(DefaultOffset) == 0 && limit.GetOr(DefaultLimit) >= |values| ==>
      ListPage(values, [], limit, offset) == Page(values, |values|)
  {
    SelectNoFilter(values);
  }

  /** `Array.prototype.find` on a property: the first record whose `field` is strictly equal to `value`. */
  function FindFirst(values: seq<Record>, field: string, value: string): (r: Option<Record>)
    ensures r.None? <==> forall i :: 0 <= i < |values| ==> !Passes(values[i], Equals(field, value))
    ensures r.Some? ==> exists i :: 0 <= i < |values| && values[i] == r.value && Passes(values[i], Equals(field, value))
                          && forall j :: 0 <= j < i ==> !Passes(values[j], Equals(field, value))
  {
    if |values| == 0 then None
    else if Passes(values[0], Equals(field, value)) then Some(values[0])
    else
      var r := FindFirst(values[1..], field, value);
      assert forall i :: 1 <= i < |values| ==> values[i] == values[1..][i - 1];
      r
  }

  /** The count `.filter(x => x.status === 'published').length`. */
  function CountPublished(values: seq<Record>): (n: nat)
    ensures n == |Select(values, [Equals("status", "published")])|
    ensures n <= |values|
  {
    FiltersConjoin(values, [Equals("status", "published")]);
    |Keep(values, Equals("status", "published"))|
  }

  /** `values.reverse()` on a copy. */
  function Reversed<T>(s: seq<T>): (r: seq<T>)
    ensures |r| == |s|
    ensures forall k :: 0 <= k < |s| ==> r[k] == s[|s| - 1 - k]
  {
    if |s| == 0 then [] else [s[|s| - 1]] + Reversed(s[..|s| - 1])
  }

  /** `values.slice(-10).reverse()`: the last ten (or fewer) entries, newest first. */
  function Recent<T>(values: seq<T>): (r: seq<T>)
    ensures |r| == if |values| < 10 then |values| else 10
    ensures forall k :: 0 <= k < |r| ==> r[k] == values[|values| - 1 - k]
  {
    Reversed(Slice(values, -10, |values|))
  }

  /**
   * The record a create method stores: the input, then the properties the
   * store sets itself, which win over any the input carries.
   */
  function Stamped(input: Record, stamp: Record): (r: Record)
    ensures r.Keys == input.Keys + stamp.Keys
    ensures forall k :: k in stamp ==> r[k] == stamp[k]
    ensures forall k :: k in input && k !in stamp ==> r[k] == input[k]
  {
    input + stamp
  }

  /** `{ id, createdBy, createdAt, updatedAt }` of the content tables, both timestamps from one clock reading. */
  function OwnedStamp(id: string, createdBy: string, now: int): (s: Record)
    ensures s.Keys == {"id", "createdBy", "createdAt", "updatedAt"}
    ensures s["id"] == Str(id) && s["createdBy"] == Str(createdBy)
    ensures s["createdAt"] == s["updatedAt"] == Num(now)
  {
    map["id" := Str(id), "createdBy" := Str(createdBy), "createdAt" := Num(now), "updatedAt" := Num(now)]
  }

  /** `{ id, createdAt, updatedAt }` of applications and chat conversations. */
  function PlainStamp(id: string, now: int): (s: Record)
    ensures s.Keys == {"id", "createdAt", "updatedAt"}
    ensures s["id"] == Str(id) && s["createdAt"] == s["updatedAt"] == Num(now)
  {
    map["id" := Str(id), "createdAt" := Num(now), "updatedAt" := Num(now)]
  }

  /** `{ id, isActive: true, profileImage: null, lastLogin: null, createdAt, updatedAt }` of `createUser`. */
  function UserStamp(id: string, now: int): (s: Record)
    ensures s.Keys == {"id", "isActive", "profileImage", "lastLogin", "createdAt", "updatedAt"}
    ensures s["id"] == Str(id) && s["isActive"] == Bool(true)
    ensures s["profileImage"] == Null && s["lastLogin"] == Null
    ensures s["createdAt"] == s["updatedAt"] == Num(now)
  {
    map["id" := Str(id), "isActive" := Bool(true), "profileImage" := Null, "lastLogin" := Null,
        "createdAt" := Num(now), "updatedAt" := Num(now)]
  }

  /** `{ id, isRead: false, createdAt, updatedAt }` of `createAdminNotification`. */
  function NotificationStamp(id: string, now: int): (s: Record)
    ensures s.Keys == {"id", "isRead", "createdAt", "updatedAt"}
    ensures s["id"] == Str(id) && s["isRead"] == Bool(false)
    ensures s["createdAt"] == s["updatedAt"] == Num(now)
  {
    map["id" := Str(id), "isRead" := Bool(false), "createdAt" := Num(now), "updatedAt" := Num(now)]
  }

  /** `{ id, createdAt }` of `createAuditLog`, which has no `updatedAt`. */
  function AuditStamp(id: string, now: int): (s: Record)
    ensures s.Keys == {"id", "createdAt"}
    ensures s["id"] == Str(id) && s["createdAt"] == Num(now)
  {
    map["id" := Str(id), "createdAt" := Num(now)]
  }

  /** `{ ...item, ...updates, updatedAt: new Date() }`. */
  function Merged(item: Record, updates: Record, now: int): (r: Record)
    ensures r.Keys == item.Keys + updates.Keys + {"updatedAt"}
    ensures r["updatedAt"] == Num(now)
    ensures forall k :: k in updates && k != "updatedAt" ==> r[k] == updates[k]
    ensures forall k :: k in item && k !in updates && k != "updatedAt" ==> r[k] == item[k]
  {
    item + updates + map["updatedAt" := Num(now)]
  }

  /**
   * An `update*` method on one table: a missing id throws `notFound` and
   * changes nothing; a present one is replaced in place by the merged record,
   * which is returned, and no other entry changes.
   */
  function UpdateEntry(t: Table<Record>, id: string, updates: Record, now: int, notFound: string): (r: (Result<Record, string>, Table<Record>))
    ensures Get(t, id).None? ==> r == (Err(notFound), t)
    ensures Get(t, id).Some? ==>
      r.0 == Ok(Merged(t.rows[id], updates, now))
      && r.1.keys == t.keys && Get(r.1, id) == Some(r.0.value)
      && forall j :: j != id ==> Get(r.1, j) == Get(t, j)
  {
    match Get(t, id)
    case None => (Err(notFound), t)
    case Some(item) =>
      var updated := Merged(item, updates, now);
      (Ok(updated), Set(t, id, updated))
  }

  /** `markNotificationAsRead`: the stored record gets `isRead = true`; a missing id is ignored. */
  function MarkedRead(t: Table<Record>, id: string): (r: Table<Record>)
    ensures Get(t, id).None? ==> r == t
    ensures Get(t, id).Some? ==> Get(r, id) == Some(t.rows[id]["isRead" := Bool(true)])
    ensures r.keys == t.keys
    ensures forall j :: j != id ==> Get(r, j) == Get(t, j)
  {
    match Get(t, id)
    case None => t
    case Some(item) => Set(t, id, item["isRead" := Bool(true)])
  }

  /** Marking as read twice is marking once. */
  lemma MarkedReadIdempotent(t: Table<Record>, id: string)
    ensures MarkedRead(MarkedRead(t, id), id) == MarkedRead(t, id)
  {
    if id in t.keys {
      var once := MarkedRead(t, id);
      assert once.rows[id]["isRead" := Bool(true)] == once.rows[id];
    }
  }
}
