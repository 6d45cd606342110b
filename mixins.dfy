/** The model mixins of the server (server/src/db/mixins.py): keyset
    pagination over a table, the public-id format, lookup and deletion by
    public id, and the conversion of a row to a dictionary. The table is a
    sequence of rows; timestamps are integers, `datetime.min` among them. */
module Mixins {
  import opened Wrappers
  import opened Text

  /** The columns the mixins rely on. */
  datatype Row = Row(id: int, publicId: string, createdAt: int, updatedAt: int)

  datatype OrderType = CreatedAsc | UpdatedDesc

  /** `datetime.min`, the earliest timestamp. */
  const DateTimeMin := 0

  // ---- get_pagination ----

  /** An absent or minimal cursor starts from the beginning of the order:
      "now" when newest first, `datetime.min` when oldest first. */
  function StartCursor(order: OrderType, cursor: Option<int>, now: int): int {
    if cursor.None? || cursor.value == DateTimeMin then
      (if order == UpdatedDesc then now else DateTimeMin)
    else cursor.value
  }

  /** The order column. */
  function Key(order: OrderType, r: Row): int {
    if order == CreatedAsc then r.createdAt else r.updatedAt
  }

  /** The `where` clause: strictly after the cursor in the order. */
  predicate AfterCursor(order: OrderType, r: Row, cursor: int) {
    if order == CreatedAsc then Key(order, r) > cursor else Key(order, r) < cursor
  }

  /** `a` may come before `b`: ascending or descending on the order column. */
  predicate InOrder(order: OrderType, a: Row, b: Row) {
    if order == CreatedAsc then Key(order, a) <= Key(order, b) else Key(order, a) >= Key(order, b)
  }

  predicate Sorted(order: OrderType, s: seq<Row>) {
    forall i, j :: 0 <= i < j < |s| ==> InOrder(order, s[i], s[j])
  }

  /** The rows the `where` clause keeps, in table order. */
  function Filter(rows: seq<Row>, order: OrderType, cursor: int): (r: seq<Row>)
    ensures forall i :: 0 <= i < |r| ==> r[i] in rows && AfterCursor(order, r[i], cursor)
    ensures forall i :: 0 <= i < |rows| && AfterCursor(order, rows[i], cursor) ==> rows[i] in r
  {
    if rows == [] then []
    else (if AfterCursor(order, rows[0], cursor) then [rows[0]] else []) + Filter(rows[1..], order, cursor)
  }

  /** One insertion step: `x` placed before the first row it may precede. */
  function Insert(order: OrderType, x: Row, s: seq<Row>): (r: seq<Row>)
    ensures multiset(r) == multiset(s) + multiset{x}
  {
    if s == [] then [x]
    else if InOrder(order, x, s[0]) then [x] + s
    else
      assert s == [s[0]] + s[1..];
      [s[0]] + Insert(order, x, s[1..])
  }

  lemma {:induction false} InsertSorted(order: OrderType, x: Row, s: seq<Row>)
    requires Sorted(order, s)
    ensures Sorted(order, Insert(order, x, s))
  {
    if s != [] && !InOrder(order, x, s[0]) {
      var rest := Insert(order, x, s[1..]);
      InsertSorted(order, x, s[1..]);
      forall k | 0 <= k < |rest|
        ensures InOrder(order, s[0], rest[k])
      {
        assert rest[k] in multiset(rest);
        if rest[k] != x {
          assert rest[k] in multiset(s[1..]);
          var j :| 0 <= j < |s[1..]| && s[1..][j] == rest[k];
          assert s[j + 1] == rest[k];
        }
      }
      ConsSorted(order, s[0], rest);
    }
  }

  /** A row that may precede every row of a sorted list keeps it sorted in front. */
  lemma ConsSorted(order: OrderType, y: Row, rest: seq<Row>)
    requires Sorted(order, rest)
    requires forall k :: 0 <= k < |rest| ==> InOrder(order, y, rest[k])
    ensures Sorted(order, [y] + rest)
  {
    var t := [y] + rest;
    forall i, j | 0 <= i < j < |t|
      ensures InOrder(order, t[i], t[j])
    {
      assert t[j] == rest[j - 1];
      if i > 0 {
        assert t[i] == rest[i - 1];
      }
    }
  }

  /** The `order_by` clause, as an insertion sort; ties may come in any order. */
  function Sort(order: OrderType, s: seq<Row>): (r: seq<Row>)
    ensures multiset(r) == multiset(s) && Sorted(order, r)
  {
    if s == [] then []
    else
      var rest := Sort(order, s[1..]);
      InsertSorted(order, s[0], rest);
      assert s == [s[0]] + s[1..];
      Insert(order, s[0], rest)
  }

  function Min(a: int, b: int): int {
    if a <= b then a else b
  }

  /** The response: the page, whether another may follow, the table size. */
  datatype PaginatedResponse = PaginatedResponse(items: seq<Row>, hasNext: bool, totalCount: int)

  /** get_pagination over the table `rows`; `now` is the clock. */
  function Paginate(rows: seq<Row>, order: OrderType, cursor: Option<int>, limit: int, now: int): (p: PaginatedResponse)
    requires limit >= 0
    ensures |p.items| <= limit && p.totalCount == |rows|
    ensures p.hasNext <==> |p.items| == limit
    ensures Sorted(order, p.items)
  {
    var kept := Sort(order, Filter(rows, order, StartCursor(order, cursor, now)));
    var items := kept[..Min(limit, |kept|)];
    PaginatedResponse(items, |items| == limit, |rows|)
  }

  /** A page holds at most `limit` rows of the table, each strictly after the
      cursor, in the requested order; `has_next` holds exactly when the page
      is full; the total counts the whole table, whatever the cursor. */
  lemma PageContents(rows: seq<Row>, order: OrderType, cursor: Option<int>, limit: int, now: int)
    requires limit >= 0
    ensures var p := Paginate(rows, order, cursor, limit, now);
      var c := StartCursor(order, cursor, now);
      |p.items| <= limit && Sorted(order, p.items) &&
      (forall i :: 0 <= i < |p.items| ==> p.items[i] in rows && AfterCursor(order, p.items[i], c)) &&
      (p.hasNext <==> |p.items| == limit) && p.totalCount == |rows|
  {
    var c := StartCursor(order, cursor, now);
    var f := Filter(rows, order, c);
    var kept := Sort(order, f);
    var items := kept[..Min(limit, |kept|)];
    forall i | 0 <= i < |items|
      ensures items[i] in rows && AfterCursor(order, items[i], c)
    {
      assert items[i] in multiset(kept);
      assert items[i] in f;
    }
  }

  /** No row is skipped: a row after the cursor that is not on the page
      comes, in the order, no earlier than the page's last row, and then the
      page is full. */
  lemma NoRowSkipped(rows: seq<Row>, order: OrderType, cursor: Option<int>, limit: int, now: int, r: Row)
    requires limit >= 0
    requires r in rows && AfterCursor(order, r, StartCursor(order, cursor, now))
    ensures var p := Paginate(rows, order, cursor, limit, now);
      r in p.items || (|p.items| == limit && limit > 0 && InOrder(order, p.items[limit - 1], r)) || limit == 0
  {
    var f := Filter(rows, order, StartCursor(order, cursor, now));
    var kept := Sort(order, f);
    assert r in f;
    assert r in multiset(kept);
    var j :| 0 <= j < |kept| && kept[j] == r;
    var items := kept[..Min(limit, |kept|)];
    if j < |items| {
      assert items[j] == r;
    } else if limit > 0 {
      assert InOrder(order, kept[limit - 1], kept[j]) || limit - 1 == j;
    }
  }

  /** Without a cursor the first page starts at the beginning: every row
      created after `datetime.min` is a candidate oldest first, and every row
      updated before now newest first. */
  lemma FirstPageStartsAtBeginning(r: Row, now: int)
    ensures AfterCursor(CreatedAsc, r, StartCursor(CreatedAsc, None, now)) <==> r.createdAt > DateTimeMin
    ensures AfterCursor(UpdatedDesc, r, StartCursor(UpdatedDesc, None, now)) <==> r.updatedAt < now
    ensures StartCursor(UpdatedDesc, Some(DateTimeMin), now) == StartCursor(UpdatedDesc, None, now)
  {
  }

  // ---- generate_public_id ----

  /** `f"{cls.__name__.lower()[:3]}_{uuid}"`. */
  function PublicId(className: string, uuid: string): (id: string)
    ensures |id| == Min(3, |className|) + 1 + |uuid|
  {
    ToLower(className)[..Min(3, |className|)] + "_" + uuid
  }

  /** A public id reads back as the first three lower-cased letters of the
      class name, an underscore, and the UUID; a problem's starts "pro_". */
  lemma PublicIdFormat(className: string, uuid: string)
    requires |className| >= 3
    ensures var id := PublicId(className, uuid);
      id[..3] == ToLower(className[..3]) && id[3] == '_' && id[4..] == uuid
    ensures PublicId("Problem", uuid) == "pro_" + uuid
  {
    assert ToLower("Problem")[..3] == "pro";
  }

  // ---- get_by_public_id and delete ----

  /** The exceptions a lookup as written raises: reading `.id` on a missing
      row, or a call that binds one positional argument too many. */
  datatype LookupError = AttributeError | TypeError

  /** The first row with the public id, if any (the column is unique). */
  function FindByPublicId(rows: seq<Row>, publicId: string): (r: Option<Row>)
    ensures r.Some? ==> r.value in rows && r.value.publicId == publicId
    ensures r.None? <==> forall i :: 0 <= i < |rows| ==> rows[i].publicId != publicId
  {
    if rows == [] then None
    else if rows[0].publicId == publicId then Some(rows[0])
    else FindByPublicId(rows[1..], publicId)
  }

  /** get_by_public_id as written: it reads `result.id` to fill the cache
      before returning, so a missing row raises instead of yielding None. */
  function GetByPublicIdAsWritten(rows: seq<Row>, publicId: string): Result<Row, LookupError> {
    var found := FindByPublicId(rows, publicId);
    if found.None? then Err(AttributeError) else Ok(found.value)
  }

  /** Every lookup of a missing public id raises, so a `None` result cannot
      happen; on the empty table, "pro_x". */
  lemma MissingIdRaises(rows: seq<Row>, publicId: string)
    requires forall i :: 0 <= i < |rows| ==> rows[i].publicId != publicId
    ensures GetByPublicIdAsWritten(rows, publicId) == Err(AttributeError)
    ensures GetByPublicIdAsWritten([], "pro_x") == Err(AttributeError)
  {
  }

  /** The lookup as intended: the row, or None when there is none. */
  function GetByPublicId(rows: seq<Row>, publicId: string): (r: Option<Row>)
    ensures r.None? <==> forall i :: 0 <= i < |rows| ==> rows[i].publicId != publicId
    ensures r.Some? ==> r.value in rows && r.value.publicId == publicId
    ensures GetByPublicIdAsWritten(rows, publicId) == if r.Some? then Ok(r.value) else Err(AttributeError)
  {
    FindByPublicId(rows, publicId)
  }

  /** A call of the decorated get_by_public_id. The with_session decorator
      opens its own session and passes it ahead of the caller's arguments,
      so the function, which declares the session and the public id, binds
      only when the caller passes the public id alone. A caller that also
      passes a session supplies one positional argument too many. */
  function CallGetByPublicId(rows: seq<Row>, callerPassesSession: bool, publicId: string): (r: Result<Row, LookupError>)
    ensures callerPassesSession ==> r == Err(TypeError)
    ensures !callerPassesSession ==> r == GetByPublicIdAsWritten(rows, publicId)
  {
    if callerPassesSession then Err(TypeError) else GetByPublicIdAsWritten(rows, publicId)
  }

  /** delete as written: it passes its own session to the decorated lookup,
      and the exception is re-raised after the rollback, so the table is left
      as it was. On success it would report True and drop the row. */
  function DeleteAsWritten(rows: seq<Row>, publicId: string): Result<(bool, seq<Row>), LookupError> {
    match CallGetByPublicId(rows, true, publicId)
    case Ok(_) => Ok((true, Without(rows, publicId)))
    case Err(e) => Err(e)
  }

  /** Every call of delete raises TypeError, whether or not a row has the
      public id; the service's own lookup, which passes the id alone, binds. */
  lemma DeleteAlwaysRaises(rows: seq<Row>, publicId: string)
    ensures DeleteAsWritten(rows, publicId) == Err(TypeError)
    ensures DeleteAsWritten([Row(1, "pro_x", 0, 0)], "pro_x") == Err(TypeError)
    ensures CallGetByPublicId(rows, false, publicId).Ok? <==>
      exists i :: 0 <= i < |rows| && rows[i].publicId == publicId
  {
  }

  /** Public ids are unique in the table. */
  predicate UniquePublicIds(rows: seq<Row>) {
    forall i, j :: 0 <= i < j < |rows| ==> rows[i].publicId != rows[j].publicId
  }

  /** The table without the row of that public id. */
  function Without(rows: seq<Row>, publicId: string): (r: seq<Row>)
    ensures |r| <= |rows|
    ensures forall i :: 0 <= i < |r| ==> r[i] in rows && r[i].publicId != publicId
    ensures forall i :: 0 <= i < |rows| && rows[i].publicId != publicId ==> rows[i] in r
  {
    if rows == [] then []
    else (if rows[0].publicId == publicId then [] else [rows[0]]) + Without(rows[1..], publicId)
  }

  lemma {:induction false} WithoutKeepsUnique(rows: seq<Row>, publicId: string)
    requires UniquePublicIds(rows)
    ensures UniquePublicIds(Without(rows, publicId))
  {
    if rows != [] {
      WithoutKeepsUnique(rows[1..], publicId);
      var rest := Without(rows[1..], publicId);
      if rows[0].publicId != publicId {
        forall i | 0 <= i < |rest|
          ensures rest[i].publicId != rows[0].publicId
        {
          var k :| 0 <= k < |rows[1..]| && rows[1..][k] == rest[i];
          assert rows[k + 1] == rest[i];
        }
        ConsKeepsUnique(rows[0], rest);
      }
    }
  }

  lemma ConsKeepsUnique(x: Row, rest: seq<Row>)
    requires UniquePublicIds(rest)
    requires forall i :: 0 <= i < |rest| ==> rest[i].publicId != x.publicId
    ensures UniquePublicIds([x] + rest)
  {
    var t := [x] + rest;
    forall i, j | 0 <= i < j < |t|
      ensures t[i].publicId != t[j].publicId
    {
      assert t[j] == rest[j - 1];
      if i > 0 {
        assert t[i] == rest[i - 1];
      }
    }
  }

  /** A table of rows with unique public ids. */
  class Table {
    var rows: seq<Row>

    ghost predicate Valid()
      reads this
    {
      UniquePublicIds(rows)
    }

    constructor (initial: seq<Row>)
      requires UniquePublicIds(initial)
      ensures Valid() && rows == initial
    {
      rows := initial;
    }

    /** get_pagination: picks the cursor, then the column, direction and
        comparison by branch, then runs the query. */
    method GetPagination(order: OrderType, cursor: Option<int>, limit: int, now: int)
      returns (response: PaginatedResponse)
      requires limit >= 0
      ensures response == Paginate(rows, order, cursor, limit, now)
    {
      var start: int;
      if cursor.None? || cursor.value == DateTimeMin {
        start := if order == UpdatedDesc then now else DateTimeMin;
      } else {
        start := cursor.value;
      }
      var kept := Sort(order, Filter(rows, order, start));
      var items := kept[..Min(limit, |kept|)];
      response := PaginatedResponse(items, |items| == limit, |rows|);
    }

    /** delete as intended: the lookup called with the public id alone and
        returning None for a missing row; True and the row gone exactly when
        a row had that public id. */
    method Delete(publicId: string) returns (deleted: bool)
      requires Valid()
      modifies this
      ensures Valid()
      ensures deleted <==> exists i :: 0 <= i < |old(rows)| && old(rows)[i].publicId == publicId
      ensures rows == if deleted then Without(old(rows), publicId) else old(rows)
    {
      var found := GetByPublicId(rows, publicId);
      if found.Some? {
        WithoutKeepsUnique(rows, publicId);
        rows := Without(rows, publicId);
        return true;
      }
      return false;
    }
  }

  // ---- to_dict ----

  /** The caller's `exclude` set, which to_dict may update in place. */
  class NameSet {
    var names: set<string>

    constructor (names: set<string>)
      ensures this.names == names
    {
      this.names := names;
    }
  }

  /** The names to_dict leaves out: "id" and, when the caller's set is
      non-empty, the caller's names (an empty set is falsy and is replaced). */
  function Excluded(callerNames: Option<set<string>>): (ex: set<string>)
    ensures "id" in ex
  {
    if callerNames.Some? && callerNames.value != {} then callerNames.value + {"id"} else {"id"}
  }

  /** The dictionary built column by column. */
  function DictOf<V>(columns: seq<(string, V)>, excluded: set<string>): map<string, V> {
    if columns == [] then map[]
    else
      var last := columns[|columns| - 1];
      var d := DictOf(columns[..|columns| - 1], excluded);
      if last.0 in excluded then d else d[last.0 := last.1]
  }

  /** Column names are distinct. */
  predicate DistinctNames<V>(columns: seq<(string, V)>) {
    forall i, j :: 0 <= i < j < |columns| ==> columns[i].0 != columns[j].0
  }

  /** The dictionary has exactly the columns that are not excluded, each
      with its own value; "id" is never among them. */
  lemma {:induction false} DictOfContents<V>(columns: seq<(string, V)>, excluded: set<string>)
    requires DistinctNames(columns)
    ensures forall name :: name in DictOf(columns, excluded) <==>
      name !in excluded && exists i :: 0 <= i < |columns| && columns[i].0 == name
    ensures forall i :: 0 <= i < |columns| && columns[i].0 !in excluded ==>
      columns[i].0 in DictOf(columns, excluded) && DictOf(columns, excluded)[columns[i].0] == columns[i].1
  {
    if columns != [] {
      var front := columns[..|columns| - 1];
      assert DistinctNames(front);
      DictOfContents(front, excluded);
      forall name | name !in excluded && exists i :: 0 <= i < |columns| && columns[i].0 == name
        ensures name in DictOf(columns, excluded)
      {
        var i :| 0 <= i < |columns| && columns[i].0 == name;
        if i < |columns| - 1 {
          assert front[i].0 == name;
        }
      }
      forall name | name in DictOf(columns, excluded)
        ensures exists i :: 0 <= i < |columns| && columns[i].0 == name
      {
        if name != columns[|columns| - 1].0 {
          var i :| 0 <= i < |front| && front[i].0 == name;
          assert columns[i].0 == name;
        }
      }
      forall i | 0 <= i < |columns| && columns[i].0 !in excluded
        ensures columns[i].0 in DictOf(columns, excluded) && DictOf(columns, excluded)[columns[i].0] == columns[i].1
      {
        if i < |columns| - 1 {
          assert front[i] == columns[i];
          assert columns[i].0 != columns[|columns| - 1].0;
        }
      }
    }
  }

  /** to_dict: fills the dictionary in a loop over the columns, after adding
      "id" to the exclusion set, which is the caller's own set when that set
      is non-empty. */
  method ToDict<V>(columns: seq<(string, V)>, exclude: NameSet?) returns (result: map<string, V>)
    modifies exclude
    ensures result == DictOf(columns, Excluded(if exclude == null then None else Some(old(exclude.names))))
    ensures exclude != null ==>
      exclude.names == if old(exclude.names) != {} then old(exclude.names) + {"id"} else old(exclude.names)
  {
    var excluded: set<string>;
    if exclude != null && exclude.names != {} {
      exclude.names := exclude.names + {"id"};
      excluded := exclude.names;
    } else {
      excluded := {"id"};
    }
    result := map[];
    var i := 0;
    while i < |columns|
      invariant 0 <= i <= |columns|
      invariant result == DictOf(columns[..i], excluded)
    {
      assert columns[..i + 1][..i] == columns[..i];
      if columns[i].0 !in excluded {
        result := result[columns[i].0 := columns[i].1];
      }
      i := i + 1;
    }
    assert columns[..i] == columns;
  }
}
