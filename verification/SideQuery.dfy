/** The memory recall of a turn (adapter/memory/sidequery.go) on one snapshot of a tenant's rows. */
module SideQuery {
  import opened Text

  /** A 64-bit primary key. */
  datatype RowID = RowID(n: int)

  datatype Row = Row(id: RowID, createdAt: int, category: string, key: string, content: string)

  datatype Answer = Rows(rows: seq<Row>) | QueryError(msg: string)

  /** Identifiers are a primary key. */
  predicate KeyedByID(table: set<Row>) {
    forall a, b | a in table && b in table && a.id == b.id :: a == b
  }

  /** Every row is stored under its own identifier. */
  predicate KeyedMap(byID: map<RowID, Row>) {
    forall k | k in byID :: byID[k].id == k
  }

  predicate NewestFirst(s: seq<Row>) {
    forall i, j | 0 <= i < j < |s| :: s[i].createdAt >= s[j].createdAt
  }

  predicate Distinct(s: seq<Row>) {
    forall i, j | 0 <= i < j < |s| :: s[i].id != s[j].id
  }

  function Least(a: nat, b: nat): nat {
    if a <= b then a else b
  }

  /** s is what ORDER BY created_at DESC LIMIT n may return on rows: no identifier twice, newest
      first, as many as asked for and present, and no row left out that is newer than one returned. */
  predicate TopOf(rows: set<Row>, n: nat, s: seq<Row>) {
    Distinct(s) && NewestFirst(s) && |s| == Least(n, |rows|) &&
    (forall r | r in s :: r in rows) &&
    forall r, o | r in rows && r !in s && o in s :: o.createdAt >= r.createdAt
  }

  /** The store's limit: out of range means its default. */
  function Clamp(limit: int, default: nat): nat {
    if limit <= 0 || limit > 50 then default else limit
  }

  function EffectiveLimit(limit: int): (n: nat)
    ensures n > 0
  {
    if limit <= 0 then 5 else limit
  }

  function EffectiveRecent(recentExtra: int): (n: nat)
    ensures n > 0
  {
    Clamp(if recentExtra <= 0 then 12 else recentExtra, 15)
  }

  function MatchLimit(limit: int): (n: nat)
    ensures n > 0
  {
    Clamp(EffectiveLimit(limit) + 8, 10)
  }

  /** The limits in the code's numbers: 5 rows by default, 12 recent rows by default and at most 50, else
      15, and eight more matches than the limit, up to 50, else 10. */
  lemma LimitsInTheCode(limit: int, recentExtra: int)
    ensures EffectiveLimit(limit) == (if limit > 0 then limit else 5)
    ensures EffectiveRecent(recentExtra) == (if recentExtra <= 0 then 12 else if recentExtra <= 50 then recentExtra else 15)
    ensures MatchLimit(limit) == (if limit <= 0 then 13 else if limit <= 42 then limit + 8 else 10)
  {
  }

  function Elements(s: seq<Row>): set<Row> {
    set r | r in s
  }

  /** What the two queries answer on one snapshot: the newest of the rows that match, asked only for
      a query that is not blank, and the newest of all rows. */
  ghost predicate Answered(table: set<Row>, hits: set<Row>, match_: Answer, recent: Answer, limit: int, recentExtra: int) {
    KeyedByID(table) && hits <= table &&
    (match_.Rows? ==> TopOf(hits, MatchLimit(limit), match_.rows)) &&
    (recent.Rows? ==> TopOf(table, EffectiveRecent(recentExtra), recent.rows))
  }

  /** The recall is a top selection of the keyword hits and recent rows read; it is one of the whole
      tenant when the limit is within the recent rows. */
  method SelectForTurn(query: string, match_: Answer, recent: Answer, limit: int, recentExtra: int,
                       ghost table: set<Row>, ghost hits: set<Row>)
    returns (out: Answer)
    requires Answered(table, hits, match_, recent, limit, recentExtra)
    ensures out.Rows? <==> recent.Rows? && (TrimSpace(query) == "" || match_.Rows?)
    ensures out.Rows? ==> TopOf(Candidates(query, match_, recent), EffectiveLimit(limit), out.rows)
    ensures out.Rows? ==>
              TopOf((if TrimSpace(query) == "" then {} else Elements(match_.rows)) + Elements(recent.rows),
                    if limit > 0 then limit else 5, out.rows)
    ensures out.Rows? && EffectiveLimit(limit) <= EffectiveRecent(recentExtra) ==>
              TopOf(table, EffectiveLimit(limit), out.rows)
    ensures out.QueryError? ==> out == if TrimSpace(query) != "" && match_.QueryError? then match_ else recent
  {
    AnswersAreRows(table, hits, match_, recent, limit, recentExtra);
    hide TrimSpace, TopOf, KeyedByID, Elements, Answered, EffectiveLimit, EffectiveRecent, Candidates, KeyedMap;
    var n := EffectiveLimit(limit);
    var q := TrimSpace(query);
    var byID: map<RowID, Row> := map[];
    NothingKeyed();
    CandidatesAre(query, match_, recent);
    if q != "" {
      if match_.QueryError? {
        return match_;
      }
      byID := Collect(byID, match_.rows, table);
    }
    if recent.QueryError? {
      return recent;
    }
    byID := Collect(byID, recent.rows, table);
    var merged := NewestOf(byID, n);
    out := Rows(merged);
    WithinRecent(table, hits, query, match_, recent, limit, recentExtra, merged);
    LimitsInTheCode(limit, recentExtra);
  }

  lemma NothingKeyed()
    ensures var none: map<RowID, Row> := map[]; KeyedMap(none) && none.Values == {}
  {
  }

  lemma CandidatesAre(query: string, match_: Answer, recent: Answer)
    ensures recent.Rows? ==>
              Candidates(query, match_, recent) ==
              if TrimSpace(query) != "" && match_.Rows? then {} + Elements(match_.rows) + Elements(recent.rows)
              else {} + Elements(recent.rows)
  {
  }

  lemma WithinRecent(table: set<Row>, hits: set<Row>, query: string, match_: Answer, recent: Answer,
                     limit: int, recentExtra: int, merged: seq<Row>)
    ensures Answered(table, hits, match_, recent, limit, recentExtra) && recent.Rows? &&
            TopOf(Candidates(query, match_, recent), EffectiveLimit(limit), merged) &&
            EffectiveLimit(limit) <= EffectiveRecent(recentExtra) ==>
              TopOf(table, EffectiveLimit(limit), merged)
  {
    hide TrimSpace, TopOf, KeyedByID, Elements, EffectiveLimit, EffectiveRecent, Answered;
    if Answered(table, hits, match_, recent, limit, recentExtra) && recent.Rows? &&
       TopOf(Candidates(query, match_, recent), EffectiveLimit(limit), merged) &&
       EffectiveLimit(limit) <= EffectiveRecent(recentExtra)
    {
      AnswersAreRows(table, hits, match_, recent, limit, recentExtra);
      var found := if TrimSpace(query) != "" && match_.Rows? then Elements(match_.rows) else {};
      TopOfTenant(table, found, recent.rows, EffectiveLimit(limit), EffectiveRecent(recentExtra), merged);
    }
  }

  lemma AnswersAreRows(table: set<Row>, hits: set<Row>, match_: Answer, recent: Answer, limit: int, recentExtra: int)
    requires Answered(table, hits, match_, recent, limit, recentExtra)
    ensures KeyedByID(table)
    ensures match_.Rows? ==> Elements(match_.rows) <= table
    ensures recent.Rows? ==> Elements(recent.rows) <= table && TopOf(table, EffectiveRecent(recentExtra), recent.rows)
  {
  }

  /** merged, sorted and cut. */
  method NewestOf(byID: map<RowID, Row>, limit: nat) returns (merged: seq<Row>)
    requires KeyedMap(byID)
    ensures TopOf(byID.Values, limit, merged)
  {
    merged := ValuesOf(byID);
    merged := SortNewestFirst(merged);
    PrefixIsTop(merged, limit);
    if |merged| > limit {
      merged := merged[..limit];
    }
  }

  lemma PrefixIsTop(s: seq<Row>, n: nat)
    requires Distinct(s) && NewestFirst(s)
    ensures TopOf(Elements(s), n, if |s| > n then s[..n] else s)
  {
    DistinctCount(s);
    var t := if |s| > n then s[..n] else s;
    forall r, o | r in Elements(s) && r !in t && o in t ensures o.createdAt >= r.createdAt {
      var i :| 0 <= i < |s| && s[i] == r;
      var j :| 0 <= j < |t| && t[j] == o;
      assert s[j] == o;
      assert t == s[..|t|];
    }
  }

  /** Keyword hits and recent rows together. */
  function Candidates(query: string, match_: Answer, recent: Answer): set<Row> {
    (if TrimSpace(query) != "" && match_.Rows? then Elements(match_.rows) else {}) +
    (if recent.Rows? then Elements(recent.rows) else {})
  }

  /** byID[r.ID] = r for every row. */
  method Collect(byID0: map<RowID, Row>, rows: seq<Row>, ghost table: set<Row>) returns (byID: map<RowID, Row>)
    requires KeyedByID(table) && Elements(rows) <= table && byID0.Values <= table
    requires KeyedMap(byID0)
    ensures KeyedMap(byID)
    ensures byID.Values == byID0.Values + Elements(rows)
  {
    byID := byID0;
    for i := 0 to |rows|
      invariant KeyedMap(byID)
      invariant byID.Values == byID0.Values + Elements(rows[..i])
    {
      var r := rows[i];
      assert r in Elements(rows);
      assert rows[..i + 1] == rows[..i] + [r];
      ghost var before := byID;
      if r.id in byID {
        assert byID[r.id] in byID.Values;
        assert byID[r.id] == r;
      }
      byID := byID[r.id := r];
      PutValues(before, r);
    }
    assert rows[..|rows|] == rows;
  }

  lemma PutValues(m: map<RowID, Row>, r: Row)
    requires r.id in m ==> m[r.id] == r
    ensures m[r.id := r].Values == m.Values + {r}
  {
    var m' := m[r.id := r];
    forall x | x in m.Values + {r} ensures x in m'.Values {
      if x == r {
        assert m'[r.id] == r;
      } else {
        assert x in m.Values;
        var k :| k in m && m[k] == x;
        assert m'[k] == x;
      }
    }
  }

  /** The values of the map, in whatever order the map gives them. */
  method ValuesOf(byID: map<RowID, Row>) returns (merged: seq<Row>)
    requires KeyedMap(byID)
    ensures Distinct(merged) && Elements(merged) == byID.Values
  {
    merged := [];
    var rest := byID.Keys;
    while |rest| > 0
      invariant rest <= byID.Keys
      invariant Distinct(merged)
      invariant forall i | 0 <= i < |merged| :: merged[i].id in byID && merged[i].id !in rest && byID[merged[i].id] == merged[i]
      invariant forall k | k in byID && k !in rest :: byID[k] in merged
      decreases rest
    {
      var k :| k in rest;
      merged := merged + [byID[k]];
      rest := rest - {k};
    }
    forall r | r in byID.Values ensures r in merged {
      var k :| k in byID && byID[k] == r;
    }
  }

  /** sort.Slice by creation time, newest first; the order of equal times is open. */
  method SortNewestFirst(s: seq<Row>) returns (r: seq<Row>)
    requires Distinct(s)
    ensures Distinct(r) && NewestFirst(r) && Elements(r) == Elements(s)
  {
    r := [];
    for n := 0 to |s|
      invariant Distinct(r) && NewestFirst(r) && Elements(r) == Elements(s[..n])
    {
      NotAmong(s, n);
      r := InsertNewestFirst(r, s[n]);
      assert s[..n + 1] == s[..n] + [s[n]];
    }
    assert s[..|s|] == s;
  }

  lemma NotAmong(s: seq<Row>, n: nat)
    requires Distinct(s) && n < |s|
    ensures forall x | x in Elements(s[..n]) :: x.id != s[n].id
  {
  }

  method InsertNewestFirst(s: seq<Row>, t: Row) returns (r: seq<Row>)
    requires Distinct(s) && NewestFirst(s)
    requires forall x | x in Elements(s) :: x.id != t.id
    ensures Distinct(r) && NewestFirst(r) && Elements(r) == Elements(s) + {t}
  {
    var k := |s|;
    while k > 0 && s[k - 1].createdAt < t.createdAt
      invariant 0 <= k <= |s|
      invariant forall i | k <= i < |s| :: s[i].createdAt < t.createdAt
    {
      k := k - 1;
    }
    r := s[..k] + [t] + s[k..];
    InsertKeepsOrder(s, k, t);
    InsertKeepsDistinct(s, k, t);
  }

  lemma InsertKeepsOrder(s: seq<Row>, k: nat, t: Row)
    requires NewestFirst(s) && k <= |s|
    requires forall i | k <= i < |s| :: s[i].createdAt < t.createdAt
    requires k > 0 ==> s[k - 1].createdAt >= t.createdAt
    ensures NewestFirst(s[..k] + [t] + s[k..])
  {
  }

  lemma InsertKeepsDistinct(s: seq<Row>, k: nat, t: Row)
    requires Distinct(s) && k <= |s|
    requires forall x | x in Elements(s) :: x.id != t.id
    ensures Distinct(s[..k] + [t] + s[k..])
    ensures Elements(s[..k] + [t] + s[k..]) == Elements(s) + {t}
  {
    assert forall i | 0 <= i < |s| :: s[i] in Elements(s);
    assert s == s[..k] + s[k..];
    assert Elements(s) == Elements(s[..k]) + Elements(s[k..]);
  }

  lemma {:induction false} DistinctCount(s: seq<Row>)
    requires Distinct(s)
    ensures |Elements(s)| == |s|
  {
    if s != [] {
      var init, last := s[..|s| - 1], s[|s| - 1];
      DistinctCount(init);
      assert s == init + [last];
      assert Elements(s) == Elements(init) + {last};
      NotAmong(s, |s| - 1);
    }
  }

  // ---- against the whole tenant, and against all keyword hits ----

  /** If the newest n rows of a pool are among the candidates and the limit is within n, a top
      selection of the candidates leaves out no newer row of the pool either. */
  lemma WidenPool(pool: set<Row>, n: nat, top: seq<Row>, u: set<Row>, limit: nat, out: seq<Row>)
    requires TopOf(pool, n, top) && Elements(top) <= u && limit <= n
    requires TopOf(u, limit, out)
    ensures TopOf(u + pool, limit, out)
  {
    DistinctCount(top);
    SubsetCount(Elements(top), u);
    SubsetCount(u, u + pool);
    if |top| < n {
      SameCount(Elements(top), pool);
      assert u + pool == u;
    }
    forall r, o | r in u + pool && r !in out && o in out ensures o.createdAt >= r.createdAt {
      if r !in u && o.createdAt < r.createdAt {
        OlderReturned(pool, top, out, r, o, u, limit, n);
      }
    }
  }

  /** If a row is returned that is older than a row that was not read, all the newest rows are returned too. */
  lemma OlderReturned(pool: set<Row>, top: seq<Row>, out: seq<Row>, r: Row, o: Row, u: set<Row>, limit: nat, n: nat)
    requires TopOf(pool, n, top) && TopOf(u, limit, out) && Elements(top) <= u
    requires r in pool && r !in u && o in out && o.createdAt < r.createdAt
    ensures |out| > n
  {
    forall x | x in top ensures x in out && x != o {
      assert x in Elements(top);
      assert x.createdAt >= r.createdAt;
    }
    DistinctCount(top);
    DistinctCount(out);
    SubsetCount(Elements(top) + {o}, Elements(out));
    SubsetCount(Elements(top) + {r}, pool);
  }

  /** With a limit within the recent rows that are read, the recall is a correct top selection of
      the whole tenant, whatever the keyword hits are. */
  lemma TopOfTenant(table: set<Row>, hits: set<Row>, recent: seq<Row>, limit: nat, n: nat, out: seq<Row>)
    requires hits <= table && TopOf(table, n, recent) && limit <= n
    requires TopOf(hits + Elements(recent), limit, out)
    ensures TopOf(table, limit, out)
  {
    var u := hits + Elements(recent);
    WidenPool(table, n, recent, u, limit, out);
    assert u + table == table;
  }

  lemma SameCount(a: set<Row>, b: set<Row>)
    requires a <= b && |a| == |b|
    ensures a == b
  {
    assert b == a + (b - a);
  }

  lemma SubsetCount(a: set<Row>, b: set<Row>)
    requires a <= b
    ensures |a| <= |b|
  {
    assert b == a + (b - a);
  }

  /** The i-th newest row of a sample table. */
  function Sample(i: int): Row {
    Row(RowID(i), -i, "", "", "")
  }

  function Samples(n: nat): seq<Row> {
    seq(n, i => Sample(i))
  }

  /** out is a possible recall: from the m newest hits and the n newest rows of the tenant. */
  predicate Recall(table: set<Row>, hits: set<Row>, top: seq<Row>, recent: seq<Row>, limit: nat, m: nat, n: nat, out: seq<Row>) {
    KeyedByID(table) && hits <= table && TopOf(hits, m, top) && TopOf(table, n, recent) &&
    TopOf(Elements(top) + Elements(recent), limit, out)
  }

  /** The recall is a correct top selection of the whole tenant, for every table and all hits, if and
      only if the limit is within the recent rows that are read. With a larger limit a keyword hit can
      push an older row into the result while newer rows of the tenant are not read. */
  lemma TopOfTenantExactly(limit: nat, m: nat, n: nat)
    requires m > 0
    ensures (forall table, hits, top, recent, out ::
              Recall(table, hits, top, recent, limit, m, n, out) ==> TopOf(table, limit, out)) <==> limit <= n
  {
    hide Recall, TopOf, Elements, Samples;
    if limit <= n {
      forall table, hits, top, recent, out | Recall(table, hits, top, recent, limit, m, n, out) ensures TopOf(table, limit, out) {
        RecallWithinRecent(table, hits, top, recent, limit, m, n, out);
      }
    } else {
      SampleTables(limit, m, n);
      var hit := Sample(n + 1);
      assert Recall(Elements(Samples(n + 2)), {hit}, [hit], Samples(n), limit, m, n, Samples(n) + [hit]);
    }
  }

  lemma RecallWithinRecent(table: set<Row>, hits: set<Row>, top: seq<Row>, recent: seq<Row>, limit: nat, m: nat, n: nat, out: seq<Row>)
    ensures Recall(table, hits, top, recent, limit, m, n, out) && limit <= n ==> TopOf(table, limit, out)
  {
    hide TopOf, Elements, KeyedByID;
    if Recall(table, hits, top, recent, limit, m, n, out) && limit <= n {
      TopAmong(hits, m, top);
      TopOfTenant(table, Elements(top), recent, limit, n, out);
    }
  }

  lemma TopAmong(rows: set<Row>, n: nat, s: seq<Row>)
    requires TopOf(rows, n, s)
    ensures Elements(s) <= rows
  {
  }

  lemma SampleTables(limit: nat, m: nat, n: nat)
    requires limit > n && m > 0
    ensures var table, recent, hit := Elements(Samples(n + 2)), Samples(n), Sample(n + 1);
            var out := recent + [hit];
            Recall(table, {hit}, [hit], recent, limit, m, n, out) && !TopOf(table, limit, out)
  {
    hide TopOf, KeyedByID, Samples;
    var hit := Sample(n + 1);
    var table, out := Elements(Samples(n + 2)), Samples(n) + [hit];
    SamplesOrdered(n + 2);
    SamplesTop(n + 2, n);
    SampleOut(n);
    PrefixIsTop([hit], m);
    assert Elements([hit]) == {hit};
    PrefixIsTop(out, limit);
    assert out[n] == hit;
    NotTop(table, limit, out, Sample(n), hit);
  }

  /** The recall is a correct top selection of all keyword hits and recent rows, read or not, if and
      only if the limit is within one of the two numbers of rows that are read. */
  lemma TopOfHitsExactly(limit: nat, m: nat, n: nat)
    ensures (forall table, hits, top, recent, out ::
              Recall(table, hits, top, recent, limit, m, n, out) ==> TopOf(hits + Elements(recent), limit, out))
            <==> limit <= m || limit <= n
  {
    hide Recall, TopOf, Elements, Samples;
    if limit <= m || limit <= n {
      forall table, hits, top, recent, out | Recall(table, hits, top, recent, limit, m, n, out)
        ensures TopOf(hits + Elements(recent), limit, out)
      {
        TopOfHits(table, hits, top, recent, limit, m, n, out);
      }
    } else {
      var all, top, recent := Samples(limit), Samples(m), Samples(n);
      var out := if m <= n then recent else top;
      FewSamples(limit, m, n);
      assert Recall(Elements(all), Elements(all), top, recent, limit, m, n, out);
    }
  }

  lemma TopOfHits(table: set<Row>, hits: set<Row>, top: seq<Row>, recent: seq<Row>, limit: nat, m: nat, n: nat, out: seq<Row>)
    ensures Recall(table, hits, top, recent, limit, m, n, out) && (limit <= m || limit <= n) ==>
              TopOf(hits + Elements(recent), limit, out)
  {
    var u := Elements(top) + Elements(recent);
    if Recall(table, hits, top, recent, limit, m, n, out) && limit <= m {
      WidenPool(hits, m, top, u, limit, out);
      assert u + hits == hits + Elements(recent);
    } else if Recall(table, hits, top, recent, limit, m, n, out) && limit <= n {
      WidenPool(table, n, recent, u, limit, out);
      assert u + table == table;
      NarrowPool(table, hits + Elements(recent), limit, out);
    }
  }

  /** A top selection of a pool is one of every part of it that holds the selection and is large enough. */
  lemma NarrowPool(pool: set<Row>, part: set<Row>, limit: nat, out: seq<Row>)
    requires TopOf(pool, limit, out) && part <= pool && Elements(out) <= part
    ensures TopOf(part, limit, out)
  {
    DistinctCount(out);
    SubsetCount(Elements(out), part);
    SubsetCount(part, pool);
  }

  /** Too few rows are read when all rows match and both numbers are below the limit. */
  lemma FewSamples(limit: nat, m: nat, n: nat)
    requires limit > m && limit > n
    ensures var all, top, recent := Elements(Samples(limit)), Samples(m), Samples(n);
            var out := if m <= n then recent else top;
            && Recall(all, all, top, recent, limit, m, n, out)
            && all + Elements(recent) == all && !TopOf(all, limit, out)
  {
    hide TopOf, KeyedByID, Elements, Samples;
    var all, k := Elements(Samples(limit)), if m <= n then n else m;
    var out := Samples(k);
    SamplesOrdered(limit);
    SamplesTop(limit, m);
    SamplesTop(limit, n);
    SamplesTop(k, limit);
    SamplesUnion(m, n);
    SamplesUnion(n, limit);
    TooSmall(limit, k);
  }

  lemma SamplesTop(size: nat, n: nat)
    ensures TopOf(Elements(Samples(size)), n, Samples(Least(n, size)))
  {
    hide TopOf, Elements;
    SamplesOrdered(size);
    PrefixIsTop(Samples(size), n);
    assert n < size ==> Samples(size)[..n] == Samples(n);
  }

  lemma SamplesUnion(a: nat, b: nat)
    ensures Elements(Samples(a)) + Elements(Samples(b)) == Elements(Samples(if a <= b then b else a))
  {
    SamplesGrow(Least(a, b), if a <= b then b else a);
  }

  lemma TooSmall(size: nat, k: nat)
    requires k < size
    ensures !TopOf(Elements(Samples(size)), size, Samples(k))
  {
    SamplesOrdered(size);
    DistinctCount(Samples(size));
  }

  lemma SamplesGrow(a: nat, b: nat)
    requires a <= b
    ensures Elements(Samples(a)) <= Elements(Samples(b))
  {
    assert Samples(a) == Samples(b)[..a];
  }

  /** In the code's own numbers: the recall misses no newer hit exactly when its limit is at most 42,
      because above that the match query falls back to ten rows, or within the recent rows. */
  lemma HitsInTheCode(limit: int, recentExtra: int)
    ensures (forall table, hits, top, recent, out ::
              Recall(table, hits, top, recent, EffectiveLimit(limit), MatchLimit(limit), EffectiveRecent(recentExtra), out) ==>
              TopOf(hits + Elements(recent), EffectiveLimit(limit), out))
            <==> limit <= 42 || limit <= EffectiveRecent(recentExtra)
  {
    TopOfHitsExactly(EffectiveLimit(limit), MatchLimit(limit), EffectiveRecent(recentExtra));
  }

  lemma SamplesOrdered(n: nat)
    ensures Distinct(Samples(n)) && NewestFirst(Samples(n)) && KeyedByID(Elements(Samples(n)))
  {
  }

  lemma SampleOut(n: nat)
    ensures var out := Samples(n) + [Sample(n + 1)];
            && Distinct(out) && NewestFirst(out) && Sample(n) !in out
            && Elements([Sample(n + 1)]) + Elements(Samples(n)) == Elements(out)
            && |Samples(n)| == n && Sample(n) in Elements(Samples(n + 2)) && Sample(n + 1) in Elements(Samples(n + 2))
  {
    var out := Samples(n) + [Sample(n + 1)];
    assert forall i | 0 <= i < n :: out[i] == Sample(i);
    assert Samples(n + 2)[n] == Sample(n) && Samples(n + 2)[n + 1] == Sample(n + 1);
  }

  lemma NotTop(table: set<Row>, limit: nat, out: seq<Row>, r: Row, o: Row)
    requires r in table && r !in out && o in out && o.createdAt < r.createdAt
    ensures !TopOf(table, limit, out)
  {
  }
}
