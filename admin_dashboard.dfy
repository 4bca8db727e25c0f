/** The admin dashboard's statistics (app/admin/page.tsx): three table
    counts and the number of active carts, the distinct users that have a
    row in `cart_items`. */
module AdminDashboard {
  import opened Wrappers

  /** A row of the cart-items query, which selects only `user_id`. */
  datatype CartRow = CartRow(userId: string)

  datatype Stats = Stats(products: nat, orders: nat, users: nat, activeCarts: nat)

  /** The gateway's answers: a count or null per table, the cart rows or
      none; or one of the queries throws. */
  datatype StatsAnswer =
    | StatsFetched(productsCount: Option<nat>, ordersCount: Option<nat>,
                   usersCount: Option<nat>, cartRows: Option<seq<CartRow>>)
    | StatsThrown

  const ZeroStats := Stats(0, 0, 0, 0)

  /** `new Set(rows.map(item => item.user_id))`. */
  function UserIds(rows: seq<CartRow>): set<string>
  {
    if rows == [] then {} else UserIds(rows[..|rows| - 1]) + {rows[|rows| - 1].userId}
  }

  /** The set holds exactly the user ids of the rows. */
  lemma {:induction false} UserIdsExact(rows: seq<CartRow>, u: string)
    ensures u in UserIds(rows) <==> exists i :: 0 <= i < |rows| && rows[i].userId == u
  {
    if rows != [] {
      var init := rows[..|rows| - 1];
      UserIdsExact(init, u);
      if exists i :: 0 <= i < |init| && init[i].userId == u {
        var i :| 0 <= i < |init| && init[i].userId == u;
        assert rows[i].userId == u;
      }
      if exists i :: 0 <= i < |rows| && rows[i].userId == u {
        var i :| 0 <= i < |rows| && rows[i].userId == u;
        if i < |init| {
          assert init[i].userId == u;
        }
      }
    }
  }

  /** The set is the set of the rows' user ids. */
  lemma UserIdsAsSet(rows: seq<CartRow>)
    ensures UserIds(rows) == set i | 0 <= i < |rows| :: rows[i].userId
  {
    forall u ensures u in UserIds(rows) <==> u in set i | 0 <= i < |rows| :: rows[i].userId {
      UserIdsExact(rows, u);
    }
  }

  /** There are never more active carts than cart rows. */
  lemma {:induction false} UserIdsAtMostRows(rows: seq<CartRow>)
    ensures |UserIds(rows)| <= |rows|
  {
    if rows != [] {
      UserIdsAtMostRows(rows[..|rows| - 1]);
    }
  }

  /** A further row of a user who already has a row leaves the count as it
      is; a row of a new user adds one. */
  lemma {:induction false} ActiveCartsCountUsersOnce(rows: seq<CartRow>, row: CartRow)
    ensures (exists i :: 0 <= i < |rows| && rows[i].userId == row.userId) ==>
      |UserIds(rows + [row])| == |UserIds(rows)|
    ensures (forall i :: 0 <= i < |rows| ==> rows[i].userId != row.userId) ==>
      |UserIds(rows + [row])| == |UserIds(rows)| + 1
  {
    var ext := rows + [row];
    assert ext[..|ext| - 1] == rows;
    assert UserIds(ext) == UserIds(rows) + {row.userId};
    UserIdsExact(rows, row.userId);
    if row.userId in UserIds(rows) {
      assert UserIds(ext) == UserIds(rows);
    } else {
      assert |UserIds(rows) + {row.userId}| == |UserIds(rows)| + 1;
    }
  }

  /** The statistics one successful fetch shows: each count, 0 when null;
      the number of distinct user ids among the cart rows, which is never
      more than the number of rows, and 0 without rows. */
  function StatsOf(productsCount: Option<nat>, ordersCount: Option<nat>,
                   usersCount: Option<nat>, cartRows: Option<seq<CartRow>>): (s: Stats)
    ensures s.products == productsCount.GetOr(0)
    ensures s.orders == ordersCount.GetOr(0)
    ensures s.users == usersCount.GetOr(0)
    ensures cartRows.None? ==> s.activeCarts == 0
    ensures cartRows.Some? ==>
      s.activeCarts == |set i | 0 <= i < |cartRows.value| :: cartRows.value[i].userId|
    ensures cartRows.Some? ==> s.activeCarts <= |cartRows.value|
  {
    if cartRows.Some? then
      UserIdsAsSet(cartRows.value);
      UserIdsAtMostRows(cartRows.value);
      Stats(productsCount.GetOr(0), ordersCount.GetOr(0), usersCount.GetOr(0), |UserIds(cartRows.value)|)
    else
      Stats(productsCount.GetOr(0), ordersCount.GetOr(0), usersCount.GetOr(0), 0)
  }

  class Dashboard {
    var stats: Stats

    constructor ()
      ensures stats == ZeroStats
    {
      stats := ZeroStats;
    }

    /** `fetchStats`: one `setStats` with the fetched statistics, or no
        change at all when a query throws. */
    method FetchStats(answer: StatsAnswer)
      modifies this
      ensures answer.StatsThrown? ==> stats == old(stats)
      ensures answer.StatsFetched? ==>
        stats == StatsOf(answer.productsCount, answer.ordersCount, answer.usersCount, answer.cartRows)
    {
      if answer.StatsFetched? {
        stats := StatsOf(answer.productsCount, answer.ordersCount, answer.usersCount, answer.cartRows);
      }
    }
  }
}
