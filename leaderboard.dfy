/** The leaderboard table and its plain routes: POST validates a name and a
    score and appends a row; GET lists the ten best rows, by score
    descending and then by earliest date. */
module Leaderboard {
  import opened Js

  /** Largest value of the score column (a 32-bit INTEGER). */
  const INT_MAX: int := 2147483647
  /** Capacity of the name column (VARCHAR(255)). */
  const NAME_MAX_LENGTH: nat := 255
  /** Rows a listing returns at most. */
  const TOP_N: nat := 10

  const INVALID_POST: string := "Invalid input. Name and positive score are required."
  const POST_FAILED: string := "Failed to add score to leaderboard"
  const GET_FAILED: string := "Failed to fetch leaderboard"

  /** A stored row. The name is kept as the value the request carried (the
      database driver stores its text form); `date` is the insertion time. */
  datatype Entry = Entry(name: JsValue, score: int, date: int)

  /** A request body: not JSON at all, or a parsed JSON value. */
  datatype Request = Unparsable | Body(json: JsValue)

  datatype Response =
    | Success(entry: Entry)
    | Listing(leaderboard: seq<Entry>)
    | Failure(status: int, error: string)

  /** The result of a route's checks: an error answer, or the row to insert. */
  datatype Verdict = Reject(status: int, error: string) | Store(name: JsValue, score: real)

  // ---------------------------------------------------------------------
  // POST validation

  /** `name` is truthy and `score` a non-negative number. */
  predicate ValidPostInput(name: JsValue, score: JsValue)
  {
    Truthy(name) && score.Number? && score.n >= 0.0
  }

  /** The checks of the POST route, in order: an unreadable body is a server
      error, invalid fields are a bad request, otherwise the row to insert. */
  function PostVerdict(request: Request): (v: Verdict)
    ensures !request.Body? || !Destructurable(request.json) ==> v == Reject(500, POST_FAILED)
    ensures request.Body? && Destructurable(request.json) ==>
              var name, score := Prop(request.json, "name"), Prop(request.json, "score");
              (v.Store? <==> ValidPostInput(name, score))
              && (v.Store? ==> v == Store(name, score.n) && v.score >= 0.0)
              && (v.Reject? ==> v == Reject(400, INVALID_POST))
  {
    if request.Unparsable? || !Destructurable(request.json) then Reject(500, POST_FAILED)
    else
      var name := Prop(request.json, "name");
      var score := Prop(request.json, "score");
      if !Truthy(name) || !score.Number? || score.n < 0.0 then Reject(400, INVALID_POST)
      else Store(name, score.n)
  }

  /** An empty name and a negative score are refused; a score of 0 is taken. */
  lemma PostBoundaryCases(name: JsValue)
    requires Truthy(name)
    ensures !ValidPostInput(Str(""), Number(5.0))
    ensures !ValidPostInput(name, Number(-1.0))
    ensures !ValidPostInput(name, Str("5"))
    ensures ValidPostInput(name, Number(0.0))
  {
  }

  // ---------------------------------------------------------------------
  // Storage

  /** The INSERT succeeds: the store is reachable, the name is present and
      fits the column, and the score is a whole number in the column's range
      that meets its CHECK (score >= 0). */
  predicate StorageAccepts(name: JsValue, score: real, dbUp: bool)
    ensures StorageAccepts(name, score, dbUp) ==> dbUp && 0 <= score.Floor <= INT_MAX && score.Floor as real == score
  {
    && dbUp
    && !name.Undefined? && !name.Null?
    && (name.Str? ==> |name.s| <= NAME_MAX_LENGTH)
    && score.Floor as real == score
    && 0.0 <= score <= INT_MAX as real
  }

  // ---------------------------------------------------------------------
  // Ranking

  /** `a` is listed no later than `b` under ORDER BY score DESC, date ASC. */
  predicate RanksBefore(a: Entry, b: Entry)
  {
    a.score > b.score || (a.score == b.score && a.date <= b.date)
  }

  ghost predicate Ranked(s: seq<Entry>)
  {
    forall i, j :: 0 <= i < j < |s| ==> RanksBefore(s[i], s[j])
  }

  function InsertRanked(e: Entry, s: seq<Entry>): seq<Entry>
  {
    if s == [] then [e]
    else if RanksBefore(e, s[0]) then [e] + s
    else [s[0]] + InsertRanked(e, s[1..])
  }

  /** The table in listing order (rows equal in score and date keep their
      table order). */
  function SortRanked(s: seq<Entry>): seq<Entry>
  {
    if s == [] then [] else InsertRanked(s[0], SortRanked(s[1..]))
  }

  function Min(a: nat, b: nat): nat
  {
    if a < b then a else b
  }

  /** SELECT ... ORDER BY score DESC, date ASC LIMIT 10. */
  function TopTen(rows: seq<Entry>): (top: seq<Entry>)
    ensures |top| == Min(TOP_N, |rows|)
    ensures top <= SortRanked(rows)
  {
    SortRankedPermutes(rows);
    var sorted := SortRanked(rows);
    sorted[..Min(TOP_N, |sorted|)]
  }

  lemma {:induction false} InsertRankedKeepsOrder(e: Entry, s: seq<Entry>)
    requires Ranked(s)
    ensures Ranked(InsertRanked(e, s))
  {
    if s != [] && !RanksBefore(e, s[0]) {
      var rest := InsertRanked(e, s[1..]);
      InsertRankedKeepsOrder(e, s[1..]);
      InsertRankedPermutes(e, s[1..]);
      assert s == [s[0]] + s[1..];
      forall k | 0 <= k < |rest|
        ensures RanksBefore(s[0], rest[k])
      {
        assert rest[k] in multiset(rest);
        if rest[k] != e {
          assert rest[k] in multiset(s[1..]);
          var j :| 0 <= j < |s[1..]| && s[1..][j] == rest[k];
          assert s[j + 1] == rest[k];
        }
      }
    }
  }

  /** The listing order is a permutation of the table. */
  lemma {:induction false} SortRankedPermutes(s: seq<Entry>)
    ensures multiset(SortRanked(s)) == multiset(s)
    ensures |SortRanked(s)| == |s|
  {
    if s != [] {
      var tail := SortRanked(s[1..]);
      SortRankedPermutes(s[1..]);
      InsertRankedPermutes(s[0], tail);
      assert multiset(s) == multiset(s[1..]) + multiset{s[0]} by {
        assert s == [s[0]] + s[1..];
      }
    }
    assert |multiset(SortRanked(s))| == |SortRanked(s)|;
  }

  /** Inserting adds exactly the one row, whatever the list. */
  lemma {:induction false} InsertRankedPermutes(e: Entry, s: seq<Entry>)
    ensures multiset(InsertRanked(e, s)) == multiset(s) + multiset{e}
  {
    if s != [] && !RanksBefore(e, s[0]) {
      InsertRankedPermutes(e, s[1..]);
      assert s == [s[0]] + s[1..];
    }
  }

  /** The listing order is a ranked permutation of the table. */
  lemma {:induction false} SortRankedIsRankedPermutation(s: seq<Entry>)
    ensures multiset(SortRanked(s)) == multiset(s)
    ensures |SortRanked(s)| == |s|
    ensures Ranked(SortRanked(s))
  {
    SortRankedPermutes(s);
    if s != [] {
      SortRankedIsRankedPermutation(s[1..]);
      InsertRankedKeepsOrder(s[0], SortRanked(s[1..]));
    }
  }

  /** In a ranked list every row of a prefix ranks before every row after it. */
  lemma RankedPrefixBeatsRest(sorted: seq<Entry>, n: nat)
    requires Ranked(sorted) && n <= |sorted|
    ensures forall e, f :: e in sorted[..n] && f in sorted[n..] ==> RanksBefore(e, f)
  {
    forall e, f | e in sorted[..n] && f in sorted[n..]
      ensures RanksBefore(e, f)
    {
      var i :| 0 <= i < n && sorted[..n][i] == e;
      var j :| 0 <= j < |sorted| - n && sorted[n..][j] == f;
      assert sorted[i] == e && sorted[n + j] == f;
    }
  }

  /** The listing: min(10, table size) rows, ranked, each drawn from the
      table no more often than it occurs there. */
  lemma TopTenIsBest(rows: seq<Entry>)
    ensures |TopTen(rows)| == Min(TOP_N, |rows|)
    ensures Ranked(TopTen(rows))
    ensures multiset(TopTen(rows)) <= multiset(rows)
  {
    var sorted := SortRanked(rows);
    SortRankedIsRankedPermutation(rows);
    var n := Min(TOP_N, |sorted|);
    assert sorted == sorted[..n] + sorted[n..];
    assert multiset(sorted) == multiset(sorted[..n]) + multiset(sorted[n..]);
  }

  /** Every row the listing leaves out ranks no higher than every row it
      lists. */
  lemma TopTenLeavesOutWorse(rows: seq<Entry>)
    ensures forall e, f :: e in TopTen(rows) && f in multiset(rows) - multiset(TopTen(rows)) ==> RanksBefore(e, f)
  {
    var sorted := SortRanked(rows);
    SortRankedPermutes(rows);
    SortRankedIsRankedPermutation(rows);
    var n := Min(TOP_N, |sorted|);
    var top, rest := sorted[..n], sorted[n..];
    assert sorted == top + rest;
    assert multiset(rows) - multiset(top) == multiset(rest);
    RankedPrefixBeatsRest(sorted, n);
  }

  /** Two rows of equal score are listed earliest first, ahead of a lower
      score. */
  lemma TiesListEarliestFirst()
    ensures TopTen([Entry(Str("a"), 10, 1), Entry(Str("b"), 7, 2), Entry(Str("c"), 10, 3)])
            == [Entry(Str("a"), 10, 1), Entry(Str("c"), 10, 3), Entry(Str("b"), 7, 2)]
  {
    var a, b, c := Entry(Str("a"), 10, 1), Entry(Str("b"), 7, 2), Entry(Str("c"), 10, 3);
    assert [a, b, c][1..] == [b, c];
    assert [b, c][1..] == [c];
    assert [c][1..] == [];
    assert SortRanked([c]) == [c];
    assert InsertRanked(b, [c]) == [c] + InsertRanked(b, []);
    assert SortRanked([b, c]) == [c, b];
    assert InsertRanked(a, [c, b]) == [a, c, b];
    assert SortRanked([a, b, c]) == [a, c, b];
  }

  // ---------------------------------------------------------------------
  // The table

  class Table {
    var rows: seq<Entry>

    /** Every stored score meets the column's CHECK and fits its type. */
    ghost predicate Valid()
      reads this
    {
      forall i :: 0 <= i < |rows| ==> 0 <= rows[i].score <= INT_MAX
    }

    constructor ()
      ensures Valid() && rows == []
    {
      rows := [];
    }

    /** INSERT ... VALUES (name, score, CURRENT_TIMESTAMP) with `now` as the
      clock; `dbUp` is whether the store is reachable. */
    method Insert(name: JsValue, score: real, now: int, dbUp: bool) returns (entry: Option<Entry>)
      requires Valid()
      modifies this
      ensures Valid()
      ensures StorageAccepts(name, score, dbUp) ==>
                entry == Some(Entry(name, score.Floor, now)) && rows == old(rows) + [entry.value]
      ensures !StorageAccepts(name, score, dbUp) ==> entry == None && rows == old(rows)
    {
      if !StorageAccepts(name, score, dbUp) {
        return None;
      }
      entry := Some(Entry(name, score.Floor, now));
      rows := rows + [entry.value];
    }

    /** Carry out a route's verdict: answer the rejection, or insert the row
      and answer with it, or with `failure` if the insert fails. */
    method Apply(v: Verdict, now: int, dbUp: bool, failure: string) returns (resp: Response)
      requires Valid()
      modifies this
      ensures Valid()
      ensures v.Reject? ==> resp == Failure(v.status, v.error) && rows == old(rows)
      ensures v.Store? && StorageAccepts(v.name, v.score, dbUp) ==>
                resp == Success(Entry(v.name, v.score.Floor, now)) && rows == old(rows) + [resp.entry]
      ensures v.Store? && !StorageAccepts(v.name, v.score, dbUp) ==>
                resp == Failure(500, failure) && rows == old(rows)
    {
      if v.Reject? {
        return Failure(v.status, v.error);
      }
      var entry := Insert(v.name, v.score, now, dbUp);
      if entry.None? {
        return Failure(500, failure);
      }
      resp := Success(entry.value);
    }

    /** POST /api/leaderboard. */
    method Post(request: Request, now: int, dbUp: bool) returns (resp: Response)
      requires Valid()
      modifies this
      ensures Valid()
      ensures var v := PostVerdict(request);
              && (v.Reject? ==> resp == Failure(v.status, v.error) && rows == old(rows))
              && (v.Store? && StorageAccepts(v.name, v.score, dbUp) ==>
                    resp == Success(Entry(v.name, v.score.Floor, now)) && rows == old(rows) + [resp.entry])
              && (v.Store? && !StorageAccepts(v.name, v.score, dbUp) ==>
                    resp == Failure(500, POST_FAILED) && rows == old(rows))
    {
      resp := Apply(PostVerdict(request), now, dbUp, POST_FAILED);
    }

    /** GET /api/leaderboard. */
    method Get(dbUp: bool) returns (resp: Response)
      requires Valid()
      ensures !dbUp ==> resp == Failure(500, GET_FAILED)
      ensures dbUp ==> resp == Listing(TopTen(rows))
      ensures resp.Listing? ==>
                && |resp.leaderboard| <= TOP_N
                && Ranked(resp.leaderboard)
                && forall e :: e in resp.leaderboard ==> e in rows && e.score >= 0
    {
      if !dbUp {
        return Failure(500, GET_FAILED);
      }
      var top := TopTen(rows);
      TopTenIsBest(rows);
      forall e | e in top
        ensures e in rows && e.score >= 0
      {
        assert e in multiset(top);
        assert e in multiset(rows);
      }
      resp := Listing(top);
    }
  }
}
