/**
 * The SQL-backed listen store (listens/gateways/sqlalchemy_db_gateway/
 * sqlalchemy_db_gateway.py). The `listens` table is a sequence of rows in
 * insertion order together with the next value of its integer primary key.
 */
module SqlDbGateway {
  import opened Wrappers
  import opened Definitions
  import opened Decimal
  import opened Gateways

  /** A row of the `listens` table; the provider column is named `song_vendor`. */
  datatype Row = Row(
    id: nat,
    songId: string,
    songVendor: MusicProvider,
    listenerName: string,
    note: Option<string>,
    listenTimeUtc: int,
    ianaTimezone: string)

  /** _build_sql_listen, with the key the table assigns on commit. */
  function BuildSqlListen(id: nat, listenInput: ListenInput): (row: Row)
    ensures row.id == id
  {
    Row(id, listenInput.songId, listenInput.songProvider, listenInput.listenerName,
        listenInput.note, listenInput.listenTimeUtc, listenInput.ianaTimezone)
  }

  /** _pluck_listen: the row as a Listen, its integer key rendered as text. */
  function PluckListen(row: Row): (listen: Listen)
    ensures ParseDecimal(listen.id) == Some(row.id)
  {
    DecimalRoundTrip(row.id);
    Listen(NatToDecimal(row.id), row.songId, row.songVendor, row.listenerName,
           row.listenTimeUtc, row.note, row.ianaTimezone)
  }

  /** Storing an input and reading the row back loses no field and names it by its key. */
  lemma PluckBuildRoundTrip(id: nat, listenInput: ListenInput)
    ensures InputOf(PluckListen(BuildSqlListen(id, listenInput))) == listenInput
    ensures PluckListen(BuildSqlListen(id, listenInput)).id == NatToDecimal(id)
    ensures BuildSqlListen(id, listenInput).songVendor == listenInput.songProvider
  {
  }

  /** Reading a row as a Listen and storing that input under the same key gives the row back. */
  lemma BuildPluckRoundTrip(row: Row)
    ensures BuildSqlListen(row.id, InputOf(PluckListen(row))) == row
  {
  }

  /**
   * _sql_order_function: the ordering `asc` or `desc` puts on listen times;
   * `InOrder(o, a, b)` holds when a time `a` may come before `b`. SortOrder
   * is closed, so the LookupError branch cannot be reached.
   */
  predicate InOrder(sortOrder: SortOrder, a: int, b: int): (before: bool)
    ensures a == b ==> before
  {
    match sortOrder
    case Ascending => a <= b
    case Descending => a >= b
  }

  /**
   * Either direction orders listen times totally: any two times compare, only
   * equal times compare both ways, and `desc` is `asc` read backwards.
   */
  lemma OrderFunctionIsTotal(sortOrder: SortOrder, a: int, b: int, c: int)
    ensures InOrder(sortOrder, a, b) || InOrder(sortOrder, b, a)
    ensures InOrder(sortOrder, a, b) && InOrder(sortOrder, b, a) ==> a == b
    ensures InOrder(sortOrder, a, b) && InOrder(sortOrder, b, c) ==> InOrder(sortOrder, a, c)
    ensures InOrder(Descending, a, b) <==> InOrder(Ascending, b, a)
  {
  }

  /** The filters of fetch_listens: strictly after `afterUtc`, strictly before `beforeUtc`, each if given. */
  predicate InWindow(t: int, beforeUtc: Option<int>, afterUtc: Option<int>): (inside: bool)
    ensures afterUtc.Some? && t <= afterUtc.value ==> !inside
    ensures beforeUtc.Some? && t >= beforeUtc.value ==> !inside
    ensures beforeUtc.None? && afterUtc.None? ==> inside
  {
    (afterUtc.None? || t > afterUtc.value) && (beforeUtc.None? || t < beforeUtc.value)
  }

  /** The store's invariant: keys are positive, below the next key, and increase in insertion order. */
  ghost predicate WellFormed(rows: seq<Row>, nextId: nat) {
    && nextId >= 1
    && (forall i :: 0 <= i < |rows| ==> 1 <= rows[i].id < nextId)
    && (forall i, j :: 0 <= i < j < |rows| ==> rows[i].id < rows[j].id)
  }

  /** `SqlListen.id == listen_id`: the text names the row's integer key. */
  predicate IdMatches(row: Row, listenId: string): (named: bool)
    ensures named <==> |listenId| >= 1 && AllDigits(listenId) && DigitsValue(listenId) == row.id
    ensures listenId == NatToDecimal(row.id) ==> named
  {
    DecimalRoundTrip(row.id);
    ParseDecimal(listenId) == Some(row.id)
  }

  /** fetch_listen on a table: the first row whose key the text names, or ListenDoesntExistError. */
  function FindListen(rows: seq<Row>, listenId: string): (r: Result<Listen, Exception>)
    ensures r.Failure? <==> forall i :: 0 <= i < |rows| ==> !IdMatches(rows[i], listenId)
    ensures r.Failure? ==>
              r.error == ServiceException(ListenDoesntExistError,
                                          "Listen with id " + listenId + " doesnt exist.")
    ensures r.Success? ==>
              exists i :: 0 <= i < |rows| && IdMatches(rows[i], listenId) && r.value == PluckListen(rows[i])
    decreases |rows|
  {
    if rows == [] then
      Failure(ServiceException(ListenDoesntExistError, "Listen with id " + listenId + " doesnt exist."))
    else if IdMatches(rows[0], listenId) then
      Success(PluckListen(rows[0]))
    else
      var r := FindListen(rows[1..], listenId);
      assert forall i :: 1 <= i < |rows| ==> rows[i] == rows[1..][i - 1];
      r
  }

  /** The key the store is about to assign names no stored listen. */
  lemma FreshIdUnused(rows: seq<Row>, nextId: nat)
    requires WellFormed(rows, nextId)
    ensures FindListen(rows, NatToDecimal(nextId)).Failure?
  {
    DecimalRoundTrip(nextId);
  }

  /** A listen added under the next key is the one fetched by its returned id. */
  lemma AddThenFetch(rows: seq<Row>, nextId: nat, listenInput: ListenInput)
    requires WellFormed(rows, nextId)
    ensures var row := BuildSqlListen(nextId, listenInput);
            FindListen(rows + [row], PluckListen(row).id) == Success(PluckListen(row))
  {
    var row := BuildSqlListen(nextId, listenInput);
    var table := rows + [row];
    DecimalRoundTrip(nextId);
    assert IdMatches(table[|rows|], NatToDecimal(nextId));
    var r := FindListen(table, NatToDecimal(nextId));
    var i :| 0 <= i < |table| && IdMatches(table[i], NatToDecimal(nextId)) && r.value == PluckListen(table[i]);
    assert i == |rows|;
  }

  /** The stored rows inside the window, as Listens, in table order. */
  function Filtered(rows: seq<Row>, beforeUtc: Option<int>, afterUtc: Option<int>): (r: seq<Listen>)
    ensures |r| <= |rows|
    ensures forall k :: 0 <= k < |r| ==> InWindow(r[k].listenTimeUtc, beforeUtc, afterUtc)
    decreases |rows|
  {
    if rows == [] then []
    else
      var last := rows[|rows| - 1];
      Filtered(rows[..|rows| - 1], beforeUtc, afterUtc)
        + (if InWindow(last.listenTimeUtc, beforeUtc, afterUtc) then [PluckListen(last)] else [])
  }

  /** Every stored row inside the window is among the filtered listens. */
  lemma {:induction false} FilteredComplete(rows: seq<Row>, beforeUtc: Option<int>, afterUtc: Option<int>, k: nat)
    requires k < |rows| && InWindow(rows[k].listenTimeUtc, beforeUtc, afterUtc)
    ensures PluckListen(rows[k]) in Filtered(rows, beforeUtc, afterUtc)
    decreases |rows|
  {
    if k < |rows| - 1 {
      FilteredComplete(rows[..|rows| - 1], beforeUtc, afterUtc, k);
    }
  }

  /** Listen times follow the sort order. */
  ghost predicate Ordered(listens: seq<Listen>, sortOrder: SortOrder) {
    forall i, j :: 0 <= i < j < |listens| ==>
      InOrder(sortOrder, listens[i].listenTimeUtc, listens[j].listenTimeUtc)
  }

  /**
   * ORDER BY listen time, then LIMIT: `page` is the first `limit` candidates
   * in sort order. Candidates with equal times may come in any order.
   */
  ghost predicate IsOrderedPage(page: seq<Listen>, candidates: seq<Listen>, limit: nat, sortOrder: SortOrder) {
    && |page| == (if limit < |candidates| then limit else |candidates|)
    && multiset(page) <= multiset(candidates)
    && Ordered(page, sortOrder)
    && (forall y, x :: y in page && x in multiset(candidates) - multiset(page) ==>
          InOrder(sortOrder, y.listenTimeUtc, x.listenTimeUtc))
  }

  /** A page shorter than the limit holds every candidate. */
  lemma ShortPageIsComplete(page: seq<Listen>, candidates: seq<Listen>, limit: nat, sortOrder: SortOrder)
    requires IsOrderedPage(page, candidates, limit, sortOrder)
    requires |page| < limit
    ensures multiset(page) == multiset(candidates)
  {
    var rest := multiset(candidates) - multiset(page);
    assert multiset(candidates) == multiset(page) + rest;
    assert |rest| == 0;
  }

  /** Every listen of a page of filtered rows lies in the window. */
  lemma PageWithinWindow(page: seq<Listen>, rows: seq<Row>, beforeUtc: Option<int>, afterUtc: Option<int>,
                         limit: nat, sortOrder: SortOrder)
    requires IsOrderedPage(page, Filtered(rows, beforeUtc, afterUtc), limit, sortOrder)
    ensures forall l :: l in page ==> InWindow(l.listenTimeUtc, beforeUtc, afterUtc)
  {
    var candidates := Filtered(rows, beforeUtc, afterUtc);
    forall l | l in page
      ensures InWindow(l.listenTimeUtc, beforeUtc, afterUtc)
    {
      assert l in multiset(page);
      assert l in multiset(candidates);
      var k :| 0 <= k < |candidates| && candidates[k] == l;
    }
  }

  /** With limit 1 and DESCENDING, of two listens at t1 < t2 the page is the later one. */
  lemma LatestFirst(earlier: Listen, later: Listen, page: seq<Listen>)
    requires earlier.listenTimeUtc < later.listenTimeUtc
    requires IsOrderedPage(page, [earlier, later], 1, Descending)
    ensures page == [later]
  {
    assert |page| == 1 && page[0] in page;
    assert page[0] in multiset([earlier, later]);
    assert multiset([earlier, later]) - multiset([earlier]) == multiset{later};
    if page == [earlier] {
      assert false;
    }
  }

  /** SqlAlchemyDbGateway over an in-memory `listens` table. */
  class ListenStore {
    var rows: seq<Row>
    var nextId: nat
    ghost const log: CallLog

    ghost predicate Valid()
      reads this
    {
      WellFormed(rows, nextId)
    }

    /** A store over a freshly created, empty table: the first key is 1. */
    constructor (ghost log: CallLog)
      ensures Valid() && rows == [] && nextId == 1 && this.log == log
    {
      rows := [];
      nextId := 1;
      this.log := log;
    }

    /** add_listen: inserts one row under a fresh key and returns it as a Listen. */
    method AddListen(listenInput: ListenInput) returns (listen: Listen)
      requires Valid()
      modifies this, log
      ensures Valid()
      ensures rows == old(rows) + [BuildSqlListen(old(nextId), listenInput)]
      ensures nextId == old(nextId) + 1
      ensures listen == PluckListen(BuildSqlListen(old(nextId), listenInput))
      ensures log.calls == old(log.calls) + [Call.AddListen(listenInput)]
    {
      var sqlListen := BuildSqlListen(nextId, listenInput);
      rows := rows + [sqlListen];
      nextId := nextId + 1;
      log.calls := log.calls + [Call.AddListen(listenInput)];
      listen := PluckListen(sqlListen);
    }

    /** fetch_listen: the row the id names, or ListenDoesntExistError. */
    method FetchListen(listenId: string) returns (r: Result<Listen, Exception>)
      ensures r == FindListen(rows, listenId)
    {
      var i := 0;
      while i < |rows|
        invariant 0 <= i <= |rows|
        invariant FindListen(rows[i..], listenId) == FindListen(rows, listenId)
      {
        if IdMatches(rows[i], listenId) {
          return Success(PluckListen(rows[i]));
        }
        assert rows[i..][1..] == rows[i + 1..];
        i := i + 1;
      }
      r := Failure(ServiceException(ListenDoesntExistError, "Listen with id " + listenId + " doesnt exist."));
    }

    /**
     * fetch_listens: the rows inside the window, ordered by listen time, at
     * most `limit` of them. A negative limit is refused by the database.
     */
    method FetchListens(limit: int, sortTime: SortOrder, beforeUtc: Option<int>, afterUtc: Option<int>)
      returns (r: Result<seq<Listen>, Exception>)
      ensures r.Failure? <==> limit < 0
      ensures r.Success? ==> IsOrderedPage(r.value, Filtered(rows, beforeUtc, afterUtc), limit, sortTime)
    {
      if limit < 0 {
        return Failure(OtherException("DataError"));
      }
      var candidates := SelectInWindow(rows, beforeUtc, afterUtc);
      var page := OrderAndLimit(candidates, limit, sortTime);
      r := Success(page);
    }
  }

  /** The WHERE clauses of fetch_listens: keeps the rows inside the window, in table order. */
  method SelectInWindow(rows: seq<Row>, beforeUtc: Option<int>, afterUtc: Option<int>) returns (selected: seq<Listen>)
    ensures selected == Filtered(rows, beforeUtc, afterUtc)
  {
    selected := [];
    var i := 0;
    while i < |rows|
      invariant 0 <= i <= |rows|
      invariant selected == Filtered(rows[..i], beforeUtc, afterUtc)
    {
      assert rows[..i + 1][..i] == rows[..i];
      if InWindow(rows[i].listenTimeUtc, beforeUtc, afterUtc) {
        selected := selected + [PluckListen(rows[i])];
      }
      i := i + 1;
    }
    assert rows[..i] == rows;
  }

  /** The position of a listen that may come first in the sort order. */
  method FirstInOrder(pool: seq<Listen>, sortOrder: SortOrder) returns (k: nat)
    requires pool != []
    ensures k < |pool|
    ensures forall j :: 0 <= j < |pool| ==> InOrder(sortOrder, pool[k].listenTimeUtc, pool[j].listenTimeUtc)
  {
    k := 0;
    var i := 1;
    while i < |pool|
      invariant k < i <= |pool|
      invariant forall j :: 0 <= j < i ==> InOrder(sortOrder, pool[k].listenTimeUtc, pool[j].listenTimeUtc)
    {
      if !InOrder(sortOrder, pool[k].listenTimeUtc, pool[i].listenTimeUtc) {
        k := i;
      }
      i := i + 1;
    }
  }

  /** ORDER BY listen time and LIMIT: repeatedly moves the first listen in order to the page. */
  method OrderAndLimit(candidates: seq<Listen>, limit: nat, sortOrder: SortOrder) returns (page: seq<Listen>)
    ensures IsOrderedPage(page, candidates, limit, sortOrder)
  {
    page := [];
    var pool := candidates;
    while |page| < limit && pool != []
      invariant |page| <= limit
      invariant multiset(page) + multiset(pool) == multiset(candidates)
      invariant Ordered(page, sortOrder)
      invariant forall y, x :: y in page && x in pool ==> InOrder(sortOrder, y.listenTimeUtc, x.listenTimeUtc)
      decreases |pool|
    {
      var k := FirstInOrder(pool, sortOrder);
      var next := pool[k];
      var rest := pool[..k] + pool[k + 1..];
      RemoveAt(pool, k);
      ExtendOrdered(page, next, sortOrder);
      page := page + [next];
      pool := rest;
    }
    PageFromPool(page, pool, candidates, limit, sortOrder);
  }

  /** When the selection stops, the page is the ordered page of the candidates. */
  lemma PageFromPool(page: seq<Listen>, pool: seq<Listen>, candidates: seq<Listen>, limit: nat, sortOrder: SortOrder)
    requires |page| <= limit && (|page| == limit || pool == [])
    requires multiset(page) + multiset(pool) == multiset(candidates)
    requires Ordered(page, sortOrder)
    requires forall y, x :: y in page && x in pool ==> InOrder(sortOrder, y.listenTimeUtc, x.listenTimeUtc)
    ensures IsOrderedPage(page, candidates, limit, sortOrder)
  {
    assert multiset(candidates) - multiset(page) == multiset(pool);
    assert |candidates| == |page| + |pool| by {
      assert |multiset(candidates)| == |multiset(page)| + |multiset(pool)|;
    }
  }

  lemma RemoveAt(pool: seq<Listen>, k: nat)
    requires k < |pool|
    ensures multiset(pool) == multiset(pool[..k] + pool[k + 1..]) + multiset{pool[k]}
    ensures forall x :: x in pool[..k] + pool[k + 1..] ==> x in pool
  {
    assert pool == pool[..k] + [pool[k]] + pool[k + 1..];
  }

  lemma ExtendOrdered(page: seq<Listen>, next: Listen, sortOrder: SortOrder)
    requires Ordered(page, sortOrder)
    requires forall y :: y in page ==> InOrder(sortOrder, y.listenTimeUtc, next.listenTimeUtc)
    ensures Ordered(page + [next], sortOrder)
  {
    forall i, j | 0 <= i < j < |page| + 1
      ensures InOrder(sortOrder, (page + [next])[i].listenTimeUtc, (page + [next])[j].listenTimeUtc)
    {
      if j == |page| {
        assert page[i] in page;
      }
    }
  }
}
