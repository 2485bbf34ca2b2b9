// The user table, as far as a finished game changes it: score, number of wins
// and number of games, updated for both players in one transaction.
module ScoreTable {
  import opened Basics

  datatype Row = Row(score: nat, wins: nat, total: nat)

  // The places where the database can refuse to go on.
  datatype DbStep =
    | GetConnection | Begin
    | PrepareWinner | BindWinner | ExecWinner
    | PrepareLoser | BindLoser | ExecLoser
    | Commit

  function Clamp(x: int): nat {
    if x < 0 then 0 else x
  }

  // UPDATE ... WHERE id = u changes one row or none.
  function AfterWin(rows: map<UserId, Row>, u: UserId, delta: int): map<UserId, Row> {
    if u !in rows then rows
    else rows[u := Row(Clamp(rows[u].score + delta), rows[u].wins + 1, rows[u].total + 1)]
  }

  function AfterLoss(rows: map<UserId, Row>, u: UserId, penalty: int): map<UserId, Row> {
    if u !in rows then rows
    else rows[u := Row(Clamp(rows[u].score - penalty), rows[u].wins, rows[u].total + 1)]
  }

  function Scored(rows: map<UserId, Row>, winner: UserId, loser: UserId, delta: int, penalty: int): map<UserId, Row> {
    AfterLoss(AfterWin(rows, winner, delta), loser, penalty)
  }

  // The transaction goes through exactly when no step fails and both users exist.
  predicate Succeeds(rows: map<UserId, Row>, winner: UserId, loser: UserId, fails: set<DbStep>) {
    fails == {} && winner in rows && loser in rows
  }

  // What a whole score update does: everything or nothing.
  function UpdateScore(rows: map<UserId, Row>, winner: UserId, loser: UserId, delta: int, penalty: int, fails: set<DbStep>)
    : map<UserId, Row>
  {
    if Succeeds(rows, winner, loser, fails) then Scored(rows, winner, loser, delta, penalty) else rows
  }

  class UserTable {
    var rows: map<UserId, Row>
    // How many score updates were asked for.
    ghost var calls: nat

    constructor (initial: map<UserId, Row>)
      ensures rows == initial && calls == 0
    {
      rows := initial;
      calls := 0;
    }

    // Every failing step leaves early, with a rollback once the transaction is
    // open; the rows become visible to others only at the commit.
    method UpdateScoreMatch(winner: UserId, loser: UserId, delta: int, penalty: int, fails: set<DbStep>) returns (ok: bool)
      modifies this
      ensures ok <==> fails == {} && winner in old(rows) && loser in old(rows)
      ensures ok ==> rows == Scored(old(rows), winner, loser, delta, penalty)
      ensures !ok ==> rows == old(rows)
      ensures delta == 25 && penalty == 15 && winner != loser ==> Booked(old(rows), rows, winner, loser, fails)
      ensures calls == old(calls) + 1
    {
      calls := calls + 1;
      if GetConnection in fails {
        return false;
      }
      if Begin in fails {
        return false;
      }
      var work := rows;
      if PrepareWinner in fails || BindWinner in fails || ExecWinner in fails {
        return false;
      }
      var winnerAffected := if winner in work then 1 else 0;
      work := AfterWin(work, winner, delta);
      if PrepareLoser in fails || BindLoser in fails || ExecLoser in fails {
        return false;
      }
      var loserAffected := if loser in work then 1 else 0;
      work := AfterLoss(work, loser, penalty);
      if winnerAffected != 1 || loserAffected != 1 {
        return false;
      }
      if Commit in fails {
        return false;
      }
      assert fails == {} by {
        AllSteps(fails);
      }
      rows := work;
      assert Scored(old(rows), winner, loser, delta, penalty) == UpdateScore(old(rows), winner, loser, delta, penalty, fails);
      if winner != loser {
        BothOrNeither(old(rows), winner, loser, fails);
      }
      return true;
    }
  }

  lemma AllSteps(fails: set<DbStep>)
    requires GetConnection !in fails && Begin !in fails && Commit !in fails
    requires PrepareWinner !in fails && BindWinner !in fails && ExecWinner !in fails
    requires PrepareLoser !in fails && BindLoser !in fails && ExecLoser !in fails
    ensures fails == {}
  {
    forall s | s in fails
      ensures false
    {
      match s {
        case GetConnection => assert false;
        case Begin => assert false;
        case PrepareWinner => assert false;
        case BindWinner => assert false;
        case ExecWinner => assert false;
        case PrepareLoser => assert false;
        case BindLoser => assert false;
        case ExecLoser => assert false;
        case Commit => assert false;
      }
    }
  }

  // ----- the ledger -----

  ghost function Sum(f: Row -> int, m: map<UserId, Row>): int
    decreases |m|
  {
    if m == map[] then 0 else
    var k :| k in m;
    RemovingShrinks(m, k);
    f(m[k]) + Sum(f, m - {k})
  }

  lemma RemovingShrinks(m: map<UserId, Row>, k: UserId)
    requires k in m
    ensures |m - {k}| == |m| - 1
  {
    assert (m - {k}).Keys == m.Keys - {k};
  }

  // The sum does not depend on the order in which rows are taken out.
  lemma {:induction false} SumWithout(f: Row -> int, m: map<UserId, Row>, k: UserId)
    requires k in m
    ensures Sum(f, m) == f(m[k]) + Sum(f, m - {k})
    decreases |m|
  {
    var j :| j in m && Sum(f, m) == f(m[j]) + Sum(f, m - {j});
    RemovingShrinks(m, j);
    if j != k {
      RemovingShrinks(m, k);
      SumWithout(f, m - {j}, k);
      SumWithout(f, m - {k}, j);
      assert m - {j} - {k} == m - {k} - {j};
    }
  }

  lemma SumAfterUpdate(f: Row -> int, m: map<UserId, Row>, k: UserId, row: Row)
    requires k in m
    ensures Sum(f, m[k := row]) == Sum(f, m) - f(m[k]) + f(row)
  {
    SumWithout(f, m, k);
    SumWithout(f, m[k := row], k);
    assert m[k := row] - {k} == m - {k};
  }

  ghost function SumOfTotals(m: map<UserId, Row>): int {
    Sum((r: Row) => r.total, m)
  }

  ghost function SumOfWins(m: map<UserId, Row>): int {
    Sum((r: Row) => r.wins, m)
  }

  // Games played minus twice the games won, over all users.
  ghost function Imbalance(m: map<UserId, Row>): int {
    SumOfTotals(m) - 2 * SumOfWins(m)
  }

  predicate WinsWithinTotals(m: map<UserId, Row>) {
    forall u :: u in m ==> m[u].wins <= m[u].total
  }

  // Whatever fails, a score update leaves the imbalance of the whole table
  // alone: each game is one win and two games played, or nothing at all.
  lemma UpdateKeepsImbalance(m: map<UserId, Row>, w: UserId, l: UserId, delta: int, penalty: int, fails: set<DbStep>)
    ensures Imbalance(UpdateScore(m, w, l, delta, penalty, fails)) == Imbalance(m)
    ensures UpdateScore(m, w, l, delta, penalty, fails).Keys == m.Keys
    ensures WinsWithinTotals(m) ==> WinsWithinTotals(UpdateScore(m, w, l, delta, penalty, fails))
  {
    if Succeeds(m, w, l, fails) {
      var m1 := AfterWin(m, w, delta);
      SumAfterUpdate((r: Row) => r.total, m, w, m1[w]);
      SumAfterUpdate((r: Row) => r.wins, m, w, m1[w]);
      var m2 := AfterLoss(m1, l, penalty);
      SumAfterUpdate((r: Row) => r.total, m1, l, m2[l]);
      SumAfterUpdate((r: Row) => r.wins, m1, l, m2[l]);
    }
  }

  // What a finished game does to the table: if no step fails and both players have
  // a row, the winner gets 25 points, a win and a game, the loser loses 15 points
  // but never has less than none, and gets a game; otherwise nothing changes.
  predicate Booked(m: map<UserId, Row>, m': map<UserId, Row>, w: UserId, l: UserId, fails: set<DbStep>) {
    if fails == {} && w in m && l in m then
      && m'.Keys == m.Keys
      && (forall u :: u in m && u != w && u != l ==> m'[u] == m[u])
      && m'[w] == Row(m[w].score + 25, m[w].wins + 1, m[w].total + 1)
      && m'[l] == Row(if m[l].score < 15 then 0 else m[l].score - 15, m[l].wins, m[l].total + 1)
    else m' == m
  }

  // Nobody but the two players is touched, and both or neither are.
  lemma BothOrNeither(m: map<UserId, Row>, w: UserId, l: UserId, fails: set<DbStep>)
    requires w != l
    ensures Booked(m, UpdateScore(m, w, l, 25, 15, fails), w, l, fails)
    ensures UpdateScore(m, w, l, 25, 15, fails) != m <==> fails == {} && w in m && l in m
  {
    if fails == {} && w in m && l in m {
      assert UpdateScore(m, w, l, 25, 15, fails)[w] != m[w];
    }
  }
}
