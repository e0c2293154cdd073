/**
 * The notification inbox (src/pages/NotificationPage.tsx): the icon each
 * notification gets, the three-step fetch that stops at its first
 * failure, and what the page shows.  The three awaited queries are
 * oracles whose answers are parameters; `new Date(timestamp)` is carried
 * with each row as `time`.
 */
module NotificationPage {
  import opened Base
  import opened Sorting
  import Monitor

  /** A row of the `notifications` table. */
  datatype Notification = Notification(
    notificationId: int, timestamp: string, time: int, kind: string,
    category: string, header: string, message: string, locationId: int)

  // ---------------------------------------------------------------------
  // icons

  const PlantIcon: string := "\U{1FAB4}"
  const WormIcon: string := "\U{1FAB1}"
  const BellIcon: string := "\U{1F514}"

  /** `getIcon(type)`: the potted plant, the worm, or the bell. */
  function Icon(kind: string): (icon: string)
    ensures icon == PlantIcon <==> Lower(kind) == "plant"
    ensures icon == WormIcon <==> Lower(kind) == "compost"
    ensures icon == BellIcon <==> Lower(kind) != "plant" && Lower(kind) != "compost"
  {
    if Lower(kind) == "plant" then PlantIcon
    else if Lower(kind) == "compost" then WormIcon
    else BellIcon
  }

  /** The type is compared without regard to ASCII case. */
  lemma IconIgnoresCase(kind: string)
    ensures Icon(Upper(kind)) == Icon(kind)
  {
    assert Lower(Upper(kind)) == Lower(kind) by {
      forall i | 0 <= i < |kind| ensures Lower(Upper(kind))[i] == Lower(kind)[i] {
        CaseMappingAbsorbs(kind[i]);
      }
    }
  }

  /** Every notification the sensor monitor writes has type "Compost", so it shows the worm. */
  lemma MonitorNotesShowWorm(r: Monitor.Reading)
    requires Monitor.NoteFor(r).Some?
    ensures Icon(Monitor.NoteFor(r).value.kind) == WormIcon
  {
    assert Lower("Compost") == "compost";
  }

  // ---------------------------------------------------------------------
  // fetch

  /** The requests `fetchNotifications` makes, in order. */
  datatype Query =
    | AuthUser
      /** `users.location_id` of the signed-in account. */
    | UserLocation(authUid: string)
      /** `notifications` at the location, newest `timestamp` first. */
    | NotificationsAt(locationId: int)

  /** The queries made and, when the chain completes, the rows to show. */
  datatype FetchResult = FetchResult(queries: seq<Query>, rows: Option<seq<Notification>>)

  /**
   * The chain: an auth error or no user stops after the first query; a
   * lookup error or no users row stops after the second; an error of the
   * notifications query stops after the third.  Otherwise the rows, or `[]`
   * for `null` data, are shown.
   */
  function Fetch(user: Result<Option<string>>, location: Result<Option<int>>,
                 rows: Result<Option<seq<Notification>>>): (f: FetchResult)
    ensures 1 <= |f.queries| <= 3 && f.queries[0] == AuthUser
    ensures f.rows.Some? <==> |f.queries| == 3 && rows.Ok?
  {
    if user.Err? || user.value.None? then FetchResult([AuthUser], None)
    else if location.Err? || location.value.None? then FetchResult([AuthUser, UserLocation(user.value.value)], None)
    else
      var queries := [AuthUser, UserLocation(user.value.value), NotificationsAt(location.value.value)];
      if rows.Err? then FetchResult(queries, None)
      else FetchResult(queries, Some(if rows.value.Some? then rows.value.value else []))
  }

  /** Each failing step ends the chain right there, with nothing to show. */
  lemma FetchStopsAtFirstFailure(user: Result<Option<string>>, location: Result<Option<int>>,
                                 rows: Result<Option<seq<Notification>>>)
    ensures (user.Err? || user.value.None?) ==> Fetch(user, location, rows) == FetchResult([AuthUser], None)
    ensures user.Ok? && user.value.Some? && (location.Err? || location.value.None?) ==>
              Fetch(user, location, rows) == FetchResult([AuthUser, UserLocation(user.value.value)], None)
    ensures user.Ok? && user.value.Some? && location.Ok? && location.value.Some? && rows.Err? ==>
              Fetch(user, location, rows).rows == None
  {
  }

  /** When every step succeeds, the rows of the third query are shown, `null` as none. */
  lemma FetchSuccess(authUid: string, locationId: int, rows: Option<seq<Notification>>)
    ensures Fetch(Ok(Some(authUid)), Ok(Some(locationId)), Ok(rows)) ==
              FetchResult([AuthUser, UserLocation(authUid), NotificationsAt(locationId)],
                          Some(if rows.Some? then rows.value else []))
  {
  }

  /** The only notifications asked for are those at the signed-in user's own location. */
  lemma FetchAsksOwnLocation(user: Result<Option<string>>, location: Result<Option<int>>,
                             rows: Result<Option<seq<Notification>>>, i: int)
    requires 0 <= i < |Fetch(user, location, rows).queries|
    requires Fetch(user, location, rows).queries[i].NotificationsAt?
    ensures i == 2 && user.Ok? && user.value.Some?
    ensures location == Ok(Some(Fetch(user, location, rows).queries[i].locationId))
  {
  }

  // ---------------------------------------------------------------------
  // what the notifications query asks of the table

  /** The rows of `table` at `loc`, in table order. */
  function AtLocation(table: seq<Notification>, loc: int): (r: seq<Notification>)
    ensures forall i :: 0 <= i < |r| ==> r[i].locationId == loc
  {
    if table == [] then []
    else (if table[0].locationId == loc then [table[0]] else []) + AtLocation(table[1..], loc)
  }

  lemma {:induction false} AtLocationCounts(table: seq<Notification>, loc: int, x: Notification)
    ensures multiset(AtLocation(table, loc))[x] == if x.locationId == loc then multiset(table)[x] else 0
  {
    if table != [] {
      AtLocationCounts(table[1..], loc, x);
      assert table == [table[0]] + table[1..];
    }
  }

  function TimeKey(): Notification -> int {
    (n: Notification) => n.time
  }

  /** A correct answer to `NotificationsAt(loc)`: the rows at `loc`, each as often as stored, newest first. */
  ghost predicate Answers(table: seq<Notification>, loc: int, rows: seq<Notification>) {
    SortedDesc(rows, TimeKey())
    && forall x :: multiset(rows)[x] == if x.locationId == loc then multiset(table)[x] else 0
  }

  /** Every table has such an answer: its rows at `loc` sorted newest first. */
  lemma AnswerExists(table: seq<Notification>, loc: int)
    ensures Answers(table, loc, SortDesc(AtLocation(table, loc), TimeKey()))
  {
    var rows := SortDesc(AtLocation(table, loc), TimeKey());
    SortDescSorted(AtLocation(table, loc), TimeKey());
    SortDescPermutes(AtLocation(table, loc), TimeKey());
    forall x: Notification ensures multiset(rows)[x] == if x.locationId == loc then multiset(table)[x] else 0 {
      AtLocationCounts(table, loc, x);
    }
  }

  /** A correct answer holds exactly the table's rows at `loc`. */
  lemma AnswerIsTheLocation(table: seq<Notification>, loc: int, rows: seq<Notification>, x: Notification)
    requires Answers(table, loc, rows)
    ensures x in rows <==> x in table && x.locationId == loc
  {
    assert x in rows <==> multiset(rows)[x] > 0;
    assert x in table <==> multiset(table)[x] > 0;
  }
  /**
   * When the data service answers the third query correctly, the page
   * shows exactly the notifications stored at the user's own location.
   */
  lemma FetchShowsOwnLocation(table: seq<Notification>, authUid: string, loc: int, answer: seq<Notification>)
    requires Answers(table, loc, answer)
    ensures Fetch(Ok(Some(authUid)), Ok(Some(loc)), Ok(Some(answer))).rows == Some(answer)
    ensures forall x :: x in answer <==> x in table && x.locationId == loc
  {
    forall x ensures x in answer <==> x in table && x.locationId == loc {
      AnswerIsTheLocation(table, loc, answer, x);
    }
  }


  // ---------------------------------------------------------------------
  // the page

  /** One listed notification: icon, header, message and the category label. */
  datatype Card = Card(icon: string, header: string, message: string, category: string)

  datatype PageView = Notice(text: string) | Listed(cards: seq<Card>)

  /** The render: the loading notice, then the empty notice, then one card per row. */
  function ViewOf(loading: bool, notifications: seq<Notification>): (v: PageView)
    ensures v == Notice("Loading notifications...") <==> loading
    ensures v == Notice("No notifications found.") <==> !loading && notifications == []
    ensures v.Listed? <==> !loading && notifications != []
    ensures v.Listed? ==> |v.cards| == |notifications|
    ensures v.Listed? ==> forall i :: 0 <= i < |v.cards| ==>
              v.cards[i] == Card(Icon(notifications[i].kind), notifications[i].header, notifications[i].message, notifications[i].category)
  {
    if loading then Notice("Loading notifications...")
    else if notifications == [] then Notice("No notifications found.")
    else Listed(seq(|notifications|, i requires 0 <= i < |notifications| =>
                  Card(Icon(notifications[i].kind), notifications[i].header, notifications[i].message, notifications[i].category)))
  }

  class NotificationsPage {
    var notifications: seq<Notification>
    var loading: bool

    constructor ()
      ensures notifications == [] && loading
    {
      notifications, loading := [], true;
    }

    function View(): PageView
      reads this
    {
      ViewOf(loading, notifications)
    }

    /** `fetchNotifications`: loading ends false on every path; the rows replace the list only at the end. */
    method FetchNotifications(user: Result<Option<string>>, location: Result<Option<int>>,
                              rows: Result<Option<seq<Notification>>>)
      returns (queries: seq<Query>)
      modifies this
      ensures queries == Fetch(user, location, rows).queries
      ensures !loading
      ensures Fetch(user, location, rows).rows.Some? ==> notifications == Fetch(user, location, rows).rows.value
      ensures Fetch(user, location, rows).rows.None? ==> notifications == old(notifications)
    {
      loading := true;
      queries := [AuthUser];
      if user.Err? || user.value.None? {
        loading := false;
        return;
      }
      queries := queries + [UserLocation(user.value.value)];
      if location.Err? || location.value.None? {
        loading := false;
        return;
      }
      queries := queries + [NotificationsAt(location.value.value)];
      if rows.Err? {
        loading := false;
        return;
      }
      notifications := if rows.value.Some? then rows.value.value else [];
      loading := false;
    }
  }
}
