// The `profile_id` table of saved accounts: which account is tracked, how
// one is activated from the settings window, and how display names are
// refreshed from the web API at start-up.
module Accounts {
  import opened Wrappers

  /** One row of `profile_id`. `created` stands for `create_time`; rows are
      kept in the order they were inserted, which is creation order. */
  datatype Account = Account(profileId: int, name: string, status: int, created: int)

  /** `profile_id` is the table's primary key. */
  predicate UniqueIds(rows: seq<Account>) {
    forall i, j :: 0 <= i < j < |rows| ==> rows[i].profileId != rows[j].profileId
  }

  /** Rows appear in order of `create_time`. */
  predicate CreationOrdered(rows: seq<Account>) {
    forall i, j :: 0 <= i < j < |rows| ==> rows[i].created <= rows[j].created
  }

  predicate ValidTable(rows: seq<Account>) {
    UniqueIds(rows) && CreationOrdered(rows)
  }

  /** Is some row marked active (`status = 1`)? */
  predicate AnyActive(rows: seq<Account>) {
    exists k :: 0 <= k < |rows| && rows[k].status == 1
  }

  /** The position of the most recently created active row. */
  function LastActive(rows: seq<Account>): (r: Option<nat>)
    ensures r.Some? ==> r.value < |rows| && rows[r.value].status == 1
    ensures r.Some? ==> forall k :: r.value < k < |rows| ==> rows[k].status != 1
    ensures r.None? ==> !AnyActive(rows)
  {
    if rows == [] then None
    else if rows[|rows| - 1].status == 1 then Some(|rows| - 1)
    else LastActive(rows[..|rows| - 1])
  }

  /** `get_now_availiable`: the most recently created row among the rows
      with `status = 1`, or among all rows when none has it; None when the
      table is empty (the unpacking of a missing row fails and is caught). */
  function NowAvailable(rows: seq<Account>): Option<Account> {
    match LastActive(rows)
    case Some(i) => Some(rows[i])
    case None => if rows == [] then None else Some(rows[|rows| - 1])
  }

  /** What `get_now_availiable` promises: a row of the table, active when any
      row is, and created no earlier than any other candidate row. */
  lemma NowAvailableIsLatestCandidate(rows: seq<Account>)
    requires CreationOrdered(rows)
    ensures NowAvailable(rows).None? <==> rows == []
    ensures NowAvailable(rows).Some? ==> NowAvailable(rows).value in rows
    ensures NowAvailable(rows).Some? && AnyActive(rows) ==> NowAvailable(rows).value.status == 1
    ensures NowAvailable(rows).Some? ==>
              forall k :: 0 <= k < |rows| && (rows[k].status == 1 || !AnyActive(rows)) ==>
                rows[k].created <= NowAvailable(rows).value.created
  {
    match LastActive(rows)
    case Some(i) =>
      forall k | 0 <= k < |rows| && rows[k].status == 1
        ensures rows[k].created <= rows[i].created
      {
        assert k <= i;
      }
    case None =>
  }

  /** The two UPDATE statements of `click_on_button`: every row gets
      `status = -1`, then the chosen id gets `status = 1`. */
  function Activate(rows: seq<Account>, id: int): (r: seq<Account>)
    ensures |r| == |rows|
  {
    seq(|rows|, k requires 0 <= k < |rows| => rows[k].(status := if rows[k].profileId == id then 1 else -1))
  }

  /** After activation the chosen id is the one with status 1, every other
      row has status -1, and nothing but the status changes. */
  lemma ActivateStatuses(rows: seq<Account>, id: int)
    ensures forall k :: 0 <= k < |rows| ==>
              Activate(rows, id)[k].status == (if rows[k].profileId == id then 1 else -1)
    ensures forall k :: 0 <= k < |rows| ==>
              Activate(rows, id)[k].(status := rows[k].status) == rows[k]
    ensures ValidTable(rows) ==> ValidTable(Activate(rows, id))
  {
  }

  /** Clicking a saved account makes it the tracked one. */
  lemma ActivatedIsTracked(rows: seq<Account>, id: int, k: nat)
    requires ValidTable(rows)
    requires k < |rows| && rows[k].profileId == id
    ensures NowAvailable(Activate(rows, id)) == Some(rows[k].(status := 1))
  {
    var a := Activate(rows, id);
    assert a[k].status == 1;
    NowAvailableIsLatestCandidate(a);
    var w :| 0 <= w < |a| && a[w] == NowAvailable(a).value;
    assert a[w].status == 1;
    assert rows[w].profileId == id;
    assert w == k;
  }

  /** Clicking an id that is not saved leaves no row active, so the most
      recently created account is tracked. */
  lemma ActivateUnknownTracksLatest(rows: seq<Account>, id: int)
    requires forall k :: 0 <= k < |rows| ==> rows[k].profileId != id
    requires rows != []
    ensures NowAvailable(Activate(rows, id)) == Some(rows[|rows| - 1].(status := -1))
  {
    var a := Activate(rows, id);
    assert !AnyActive(a);
  }

  // ---------------------------------------------------------------------
  // Start-up refresh of display names.

  /** The limit of `... order by create_time desc limit 6`. */
  const RefreshLimit: nat := 6

  /** The ids of the `limit` most recently created rows, newest first. */
  function RecentIds(rows: seq<Account>, limit: nat): (ids: seq<int>)
    ensures |ids| == if limit < |rows| then limit else |rows|
    ensures forall k :: 0 <= k < |ids| ==> ids[k] == rows[|rows| - 1 - k].profileId
  {
    if rows == [] || limit == 0 then []
    else [rows[|rows| - 1].profileId] + RecentIds(rows[..|rows| - 1], limit - 1)
  }

  /** The answer to `GET /players/{id}`: a response with its status and the
      `name` it parsed to (None when the field is missing or the body is not
      JSON), or a request that raised. */
  datatype NameFetch = Response(status: int, name: Option<string>) | RequestFailed

  /** The name to store for an id, when the refresh changes it. */
  function FetchedName(f: NameFetch): Option<string> {
    if f.Response? && f.status == 200 then f.name else None
  }

  /** `update profile_id set player_name = ? where profile_id = ?` */
  function Rename(rows: seq<Account>, id: int, name: string): (r: seq<Account>)
    ensures |r| == |rows|
  {
    seq(|rows|, k requires 0 <= k < |rows| => if rows[k].profileId == id then rows[k].(name := name) else rows[k])
  }

  /** The loop of `update_player_name` over the ids, in order. */
  function RefreshNames(rows: seq<Account>, ids: seq<int>, fetch: int -> NameFetch): (r: seq<Account>)
    ensures |r| == |rows|
  {
    if ids == [] then rows
    else
      var last := ids[|ids| - 1];
      var before := RefreshNames(rows, ids[..|ids| - 1], fetch);
      match FetchedName(fetch(last))
      case Some(n) => Rename(before, last, n)
      case None => before
  }

  /** The refresh renames a row exactly when its id was among those visited
      and its request answered 200 with a name; it touches nothing but
      names. */
  lemma {:induction false} RefreshNamesEffect(rows: seq<Account>, ids: seq<int>, fetch: int -> NameFetch, k: nat)
    requires k < |rows|
    ensures RefreshNames(rows, ids, fetch)[k].(name := rows[k].name) == rows[k]
    ensures rows[k].profileId in ids && FetchedName(fetch(rows[k].profileId)).Some? ==>
              RefreshNames(rows, ids, fetch)[k].name == FetchedName(fetch(rows[k].profileId)).value
    ensures !(rows[k].profileId in ids && FetchedName(fetch(rows[k].profileId)).Some?) ==>
              RefreshNames(rows, ids, fetch)[k] == rows[k]
  {
    if ids != [] {
      var init := ids[..|ids| - 1];
      RefreshNamesEffect(rows, init, fetch, k);
      assert ids == init + [ids[|ids| - 1]];
    }
  }

  lemma RefreshNamesValid(rows: seq<Account>, ids: seq<int>, fetch: int -> NameFetch)
    requires ValidTable(rows)
    ensures ValidTable(RefreshNames(rows, ids, fetch))
  {
    var r := RefreshNames(rows, ids, fetch);
    forall k | 0 <= k < |rows| ensures r[k].profileId == rows[k].profileId && r[k].created == rows[k].created {
      RefreshNamesEffect(rows, ids, fetch, k);
    }
  }

  /** The `profile_id` table, which the settings window and the start-up
      refresh change in place. */
  class AccountTable {
    var rows: seq<Account>

    ghost predicate Valid()
      reads this
    {
      ValidTable(rows)
    }

    constructor (saved: seq<Account>)
      requires ValidTable(saved)
      ensures Valid() && rows == saved
    {
      rows := saved;
    }

    /** `click_on_button`: activate the clicked id and return the account
        that `get_now_availiable` then reports, which the data thread is
        switched to. */
    method ClickOnButton(id: int) returns (tracked: Option<Account>)
      requires Valid()
      modifies this
      ensures Valid()
      ensures rows == Activate(old(rows), id)
      ensures tracked == NowAvailable(rows)
      ensures forall k :: 0 <= k < |rows| && old(rows)[k].profileId == id ==> tracked == Some(rows[k])
    {
      ActivateStatuses(rows, id);
      forall k | 0 <= k < |rows| && rows[k].profileId == id
        ensures NowAvailable(Activate(rows, id)) == Some(Activate(rows, id)[k])
      {
        ActivatedIsTracked(rows, id, k);
      }
      var all := rows;
      all := seq(|all|, k requires 0 <= k < |all| => all[k].(status := -1));
      all := seq(|all|, k requires 0 <= k < |all| => if all[k].profileId == id then all[k].(status := 1) else all[k]);
      rows := all;
      assert rows == Activate(old(rows), id);
      tracked := NowAvailable(rows);
    }
  }
}
