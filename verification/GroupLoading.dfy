// The loader of the many-to-many groups edge: one query joins groups with account_groups,
// so a group comes back once per link and in any interleaving.
module GroupLoading {
  import opened AccountSchema
  import opened AccountEntity
  import opened Relational
  import opened QueryModel
  import opened QueryBuilder
  import opened EdgeLoading

  // A row of the joined query: the account id of the leading column, and the group.
  datatype JoinRow = JoinRow(account: int, group: Row)

  ghost predicate Paired(join: seq<JoinRow>, n: nat, account: int, key: SqlValue)
    requires n <= |join|
  {
    exists p :: 0 <= p < n && join[p].account == account && Col(join[p].group, FieldID) == key
  }

  ghost predicate Seen(join: seq<JoinRow>, n: nat, key: SqlValue)
    requires n <= |join|
  {
    exists p :: 0 <= p < n && Col(join[p].group, FieldID) == key
  }

  // The groups among the first n rows, each where it first occurs.
  ghost function FirstSeen(join: seq<JoinRow>, n: nat): (out: seq<Row>)
    requires n <= |join|
    ensures forall r :: r in out ==> Seen(join, n, Col(r, FieldID))
  {
    if n == 0 then []
    else if Seen(join, n - 1, Col(join[n - 1].group, FieldID)) then FirstSeen(join, n - 1)
    else FirstSeen(join, n - 1) + [join[n - 1].group]
  }

  // What the database promises of a join of the selected groups with the links of the
  // accounts `ids`: the pairs are exactly the linked ones, however often each repeats,
  // and the groups first occur in the order of the query.
  ghost predicate IsJoin(join: seq<JoinRow>, groups: seq<Row>, links: seq<Row>, ids: seq<int>) {
    && (forall p :: 0 <= p < |join| ==>
          join[p].group in groups && join[p].account in ids && Satisfies(LinkedTo(links, [join[p].account]), join[p].group))
    && (forall g, a :: g in groups && a in ids && Satisfies(LinkedTo(links, [a]), g) ==> Paired(join, |join|, a, Col(g, FieldID)))
    && FirstSeen(join, |join|) == Select(groups, [LinkedTo(links, ids)])
  }

  // ---- one way to answer the join: a nested loop -----------------------------------

  function LinkRows(g: Row, links: seq<Row>, ids: seq<int>): seq<JoinRow> {
    if links == [] then []
    else
      var init := LinkRows(g, links[..|links| - 1], ids);
      var last := links[|links| - 1];
      if LinksOne(last, ids, g) then init + [JoinRow(Col(last, AccountIDColumn).i, g)] else init
  }

  function NestedLoop(groups: seq<Row>, links: seq<Row>, ids: seq<int>): seq<JoinRow> {
    if groups == [] then []
    else NestedLoop(groups[..|groups| - 1], links, ids) + LinkRows(groups[|groups| - 1], links, ids)
  }

  // ---- the loader ------------------------------------------------------------------

  // The part of the neighbours that is paired with the account.
  ghost function GroupShare(neighbors: seq<Row>, n: nat, join: seq<JoinRow>, account: int): seq<Row>
    requires n <= |neighbors|
  {
    if n == 0 then []
    else
      var init := GroupShare(neighbors, n - 1, join, account);
      if Paired(join, |join|, account, Col(neighbors[n - 1], FieldID)) then init + [neighbors[n - 1]] else init
  }

  // The index of the accounts paired with each group id among the first n rows.
  ghost predicate PairIndexed(nids: map<int, set<Account>>, nodes: seq<Account>, objs: set<Account>, ids: seq<int>,
                              join: seq<JoinRow>, n: nat, k: int)
    requires |ids| == |nodes| && n <= |join|
  {
    && (k in nids <==> Seen(join, n, Int(k)))
    && (k in nids ==> nids[k] <= objs)
    && (k in nids ==> forall i :: 0 <= i < |nodes| ==> (nodes[i] in nids[k] <==> Paired(join, n, ids[i], Int(k))))
  }

  // The columns of the joined query: the account id in front of the group's own.
  function JoinColumns(fields: seq<Column>, all: seq<Column>): seq<Column> {
    [AccountIDColumn] + if fields == [] then all else [FieldID] + WithoutID(fields)
  }

  // A group's scanValues allocates a NullInt64 for the id; which containers it has for its
  // other columns makes no difference here.
  function GroupContainer(c: Column): Container {
    if c == FieldID then NullInt64(false, 0) else UnknownType(Null)
  }

  // What the driver scans a group's columns into.
  function GroupValues(columns: seq<Column>, group: Row): seq<Container>
    requires Col(group, FieldID).Int?
  {
    seq(|columns|, i requires 0 <= i < |columns| =>
      Scan(GroupContainer(columns[i]), Col(group, columns[i])).value)
  }

  // The wrapped scanValues: one more NullInt64 in front of the group's containers.
  function JoinValues(columns: seq<Column>, row: JoinRow): seq<Container>
    requires columns != [] && Col(row.group, FieldID).Int?
  {
    [Scan(NullInt64(false, 0), Int(row.account)).value] + GroupValues(columns[1..], row.group)
  }

  // The wrapped Assign finds the account id at position 0 and the group id at position 1,
  // because the id is the first column of every group query, and hands the group's own
  // Assign what that would get without the extra column.
  lemma LeadingColumn(fields: seq<Column>, all: seq<Column>, row: JoinRow)
    requires all != [] && all[0] == FieldID && Col(row.group, FieldID).Int?
    ensures
      var columns := JoinColumns(fields, all);
      var values := JoinValues(columns, row);
      && |values| == |columns| >= 2
      && values[0] == NullInt64(true, row.account)
      && values[1] == NullInt64(true, Col(row.group, FieldID).i)
      && values[1..] == GroupValues(columns[1..], row.group)
  {
    var columns := JoinColumns(fields, all);
    assert columns[1..][0] == columns[1] == FieldID;
  }

  // The Assign callback over all rows: a group is kept at its first row, later rows
  // only add an account to its set.
  method ScanJoin(query: EdgeQuery, groupColumns: seq<Column>, join: seq<JoinRow>, nodes: seq<Account>, byID: map<int, Account>,
                  ghost objs: set<Account>, ghost ids: seq<int>)
    returns (neighbors: seq<Row>, nids: map<int, set<Account>>)
    requires NodeSet(nodes, objs, ids) && Indexed(byID, nodes, ids)
    requires forall p :: 0 <= p < |join| ==> join[p].account in ids && Col(join[p].group, FieldID).Int?
    requires groupColumns != [] && groupColumns[0] == FieldID
    ensures neighbors == ProjectAll(query.View(), FirstSeen(join, |join|))
    ensures forall k :: PairIndexed(nids, nodes, objs, ids, join, |join|, k)
  {
    hide PairIndexed, Seen, Paired, ProjectOther, JoinValues, JoinColumns;
    var columns := JoinColumns(query.fields, groupColumns);
    neighbors, nids := [], map[];
    forall k ensures PairIndexed(nids, nodes, objs, ids, join, 0, k) { PairEmpty(nodes, objs, ids, join, k); }
    for n := 0 to |join|
      invariant neighbors == ProjectAll(query.View(), FirstSeen(join, n))
      invariant forall k :: PairIndexed(nids, nodes, objs, ids, join, n, k)
    {
      LeadingColumn(query.fields, groupColumns, join[n]);
      var values := JoinValues(columns, join[n]);
      var outValue, inValue := values[0].i, values[1].i;
      ghost var before, next := nids, n + 1;
      assert outValue in ids;
      ghost var at :| 0 <= at < |ids| && ids[at] == outValue;
      assert byID[outValue] == nodes[at];
      PairKey(nids, nodes, objs, ids, join, n, inValue);
      if inValue !in nids {
        nids := nids[inValue := {byID[outValue]}];
        assert {} + {nodes[at]} == {nodes[at]};
        neighbors := neighbors + [ProjectRow(query, join[n].group)];
      } else {
        nids := nids[inValue := nids[inValue] + {byID[outValue]}];
      }
      forall k ensures PairIndexed(nids, nodes, objs, ids, join, next, k) {
        PairStep(before, nids, nodes, objs, ids, join, n, k, at);
      }
    }
  }

  lemma PairEmpty(nodes: seq<Account>, objs: set<Account>, ids: seq<int>, join: seq<JoinRow>, k: int)
    requires |ids| == |nodes|
    ensures PairIndexed(map[], nodes, objs, ids, join, 0, k)
  {
  }

  lemma PairKey(nids: map<int, set<Account>>, nodes: seq<Account>, objs: set<Account>, ids: seq<int>,
                join: seq<JoinRow>, n: nat, k: int)
    requires |ids| == |nodes| && n <= |join| && PairIndexed(nids, nodes, objs, ids, join, n, k)
    ensures k in nids <==> Seen(join, n, Int(k))
  {
  }

  lemma PairStep(nids: map<int, set<Account>>, nids': map<int, set<Account>>, nodes: seq<Account>, objs: set<Account>,
                 ids: seq<int>, join: seq<JoinRow>, n: nat, k: int, at: nat)
    requires NodeSet(nodes, objs, ids) && n < |join| && PairIndexed(nids, nodes, objs, ids, join, n, k)
    requires at < |ids| && join[n].account == ids[at] && Col(join[n].group, FieldID).Int?
    requires var key := Col(join[n].group, FieldID).i;
      nids' == nids[key := (if key in nids then nids[key] else {}) + {nodes[at]}]
    ensures PairIndexed(nids', nodes, objs, ids, join, n + 1, k)
  {
    if Col(join[n].group, FieldID) == Int(k) {
      forall i | 0 <= i < |nodes|
        ensures nodes[i] in nids'[k] <==> Paired(join, n + 1, ids[i], Int(k))
      {
        assert Paired(join, n + 1, ids[i], Int(k)) <==> Paired(join, n, ids[i], Int(k)) || ids[i] == ids[at];
        assert nodes[i] == nodes[at] <==> ids[i] == ids[at];
        if k !in nids { NotPaired(join, n, ids[i], Int(k)); }
      }
    } else {
      assert Seen(join, n + 1, Int(k)) <==> Seen(join, n, Int(k));
      forall i | 0 <= i < |nodes|
        ensures Paired(join, n + 1, ids[i], Int(k)) <==> Paired(join, n, ids[i], Int(k))
      {
      }
    }
  }

  lemma NotPaired(join: seq<JoinRow>, n: nat, account: int, key: SqlValue)
    requires n <= |join| && !Seen(join, n, key)
    ensures !Paired(join, n, account, key)
  {
  }

  // The range over a set of accounts, in whatever order it yields them.
  method AssignGroup(owners: set<Account>, n: Row, ghost objs: set<Account>)
    requires owners <= objs
    modifies objs`groups
    ensures forall o :: o in objs ==> o.groups == if o in owners then old(o.groups) + [n] else old(o.groups)
  {
    var todo := owners;
    while todo != {}
      invariant todo <= owners
      invariant forall o :: o in objs ==> o.groups == if o in owners - todo then old(o.groups) + [n] else old(o.groups)
      decreases todo
    {
      var kn :| kn in todo;
      kn.groups := kn.groups + [n];
      todo := todo - {kn};
    }
  }

  // Appends every group to the accounts paired with it.
  method DistributeGroups(nodes: seq<Account>, nids: map<int, set<Account>>, neighbors: seq<Row>,
                          ghost objs: set<Account>, ghost ids: seq<int>, ghost join: seq<JoinRow>)
    returns (failed: bool)
    requires NodeSet(nodes, objs, ids)
    requires forall i :: 0 <= i < |nodes| ==> nodes[i].groups == []
    requires forall k :: PairIndexed(nids, nodes, objs, ids, join, |join|, k)
    requires forall j :: 0 <= j < |neighbors| ==> Col(neighbors[j], FieldID).Int? && Seen(join, |join|, Col(neighbors[j], FieldID))
    modifies objs`groups
    ensures !failed
    ensures forall i :: 0 <= i < |nodes| ==> nodes[i].groups == GroupShare(neighbors, |neighbors|, join, ids[i])
  {
    hide Seen, Paired;
    for j := 0 to |neighbors|
      invariant forall i :: 0 <= i < |nodes| ==> nodes[i].groups == GroupShare(neighbors, j, join, ids[i])
    {
      var n := neighbors[j];
      var id := IntOrZero(Col(n, FieldID));
      assert PairIndexed(nids, nodes, objs, ids, join, |join|, id);
      if id !in nids { return true; }
      AssignGroup(nids[id], n, objs);
    }
    failed := false;
  }

  // ---- what the share is -----------------------------------------------------------

  lemma {:induction false} ShareSelects(groups: seq<Row>, q: EdgeTree, n: nat, join: seq<JoinRow>,
      links: seq<Row>, account: int)
    requires n <= |groups|
    requires forall i :: 0 <= i < |groups| ==>
      (Paired(join, |join|, account, Col(groups[i], FieldID)) <==> Satisfies(LinkedTo(links, [account]), groups[i]))
    ensures GroupShare(ProjectAll(q, groups), n, join, account) == ProjectAll(q, Select(groups[..n], [LinkedTo(links, [account])]))
    requires HasID(q.table)
  {
    hide Paired, Satisfies, ProjectOther;
    if n > 0 {
      ShareSelects(groups, q, n - 1, join, links, account);
      ProjectKeeps(q, FieldID, groups[n - 1]);
      assert groups[..n][..n - 1] == groups[..n - 1];
      var p := LinkedTo(links, [account]);
      OnlyPred(p, groups[n - 1]);
    }
  }

  // Selecting twice is selecting with both; an account of the batch needs only its own link.
  lemma {:induction false} SelectLinked(rows: seq<Row>, preds: seq<Pred>, links: seq<Row>, ids: seq<int>, account: int)
    requires account in ids
    ensures Select(Select(Select(rows, preds), [LinkedTo(links, ids)]), [LinkedTo(links, [account])])
      == Select(rows, preds + [LinkedTo(links, [account])])
  {
    if rows != [] {
      var init, last := rows[..|rows| - 1], rows[|rows| - 1];
      SelectLinked(init, preds, links, ids, account);
      var any, one := LinkedTo(links, ids), LinkedTo(links, [account]);
      ExtendAll(preds, one, last);
      OnlyPred(any, last);
      OnlyPred(one, last);
      assert Satisfies(one, last) ==> Satisfies(any, last) by {
        if Satisfies(one, last) {
          var k :| 0 <= k < |links| && LinksOne(links[k], [account], last);
          assert LinksOne(links[k], ids, last);
        }
      }
    }
  }

  // An account's share of the join is the answer to its own lookup.
  lemma {:induction false} GroupLookup(q: EdgeTree, join: seq<JoinRow>, ids: seq<int>, account: int, db: DB)
    requires WellFormed(db) && q.table == Groups && account in ids
    requires IsJoin(join, OtherRows(q, db), db.others(AccountGroups, []), ids)
    ensures var seen := FirstSeen(join, |join|);
      GroupShare(ProjectAll(q, seen), |seen|, join, account) == GroupsOf(q, account, db)
  {
    var groups, links := OtherRows(q, db), db.others(AccountGroups, []);
    var seen := FirstSeen(join, |join|);
    forall i | 0 <= i < |seen|
      ensures Paired(join, |join|, account, Col(seen[i], FieldID)) <==> Satisfies(LinkedTo(links, [account]), seen[i])
    {
      assert seen[i] in seen;
      PairedIsLinked(join, groups, links, ids, account, seen[i]);
    }
    ShareSelects(seen, q, |seen|, join, links, account);
    assert seen[..|seen|] == seen;
    SelectLinked(db.others(q.table, q.order), q.preds, links, ids, account);
    var own := NarrowOther(q, LinkedTo(links, [account]));
    assert ProjectAll(own, OtherRows(own, db)) == ProjectAll(q, OtherRows(own, db));
  }

  lemma {:induction false} PairedIsLinked(join: seq<JoinRow>, groups: seq<Row>, links: seq<Row>, ids: seq<int>,
      account: int, g: Row)
    requires IsJoin(join, groups, links, ids) && account in ids && g in groups
    ensures Paired(join, |join|, account, Col(g, FieldID)) <==> Satisfies(LinkedTo(links, [account]), g)
  {
    if Paired(join, |join|, account, Col(g, FieldID)) {
      var p :| 0 <= p < |join| && join[p].account == account && Col(join[p].group, FieldID) == Col(g, FieldID);
      var k :| 0 <= k < |links| && LinksOne(links[k], [account], join[p].group);
      assert LinksOne(links[k], [account], g);
    }
  }

  // ---- the nested loop is such a join ----------------------------------------------

  lemma {:induction false} LinkRowsPairs(g: Row, links: seq<Row>, ids: seq<int>)
    ensures forall r :: r in LinkRows(g, links, ids) ==>
      r.group == g && r.account in ids && Satisfies(LinkedTo(links, [r.account]), g)
    ensures forall a :: a in ids && Satisfies(LinkedTo(links, [a]), g) ==> JoinRow(a, g) in LinkRows(g, links, ids)
    ensures LinkRows(g, links, ids) == [] <==> !Satisfies(LinkedTo(links, ids), g)
  {
    if links != [] {
      var init, last := links[..|links| - 1], links[|links| - 1];
      LinkRowsPairs(g, init, ids);
      forall accounts ensures Satisfies(LinkedTo(links, accounts), g) <==>
        Satisfies(LinkedTo(init, accounts), g) || LinksOne(last, accounts, g)
      {
        LinkedExtends(init, last, accounts, g);
        assert init + [last] == links;
      }
      assert LinksOne(last, ids, g) ==> LinksOne(last, [Col(last, AccountIDColumn).i], g);
    }
  }

  lemma LinkedExtends(init: seq<Row>, last: Row, accounts: seq<int>, g: Row)
    ensures Satisfies(LinkedTo(init + [last], accounts), g) <==>
      Satisfies(LinkedTo(init, accounts), g) || LinksOne(last, accounts, g)
  {
    var all := init + [last];
    assert all[|init|] == last;
    assert forall k :: 0 <= k < |init| ==> all[k] == init[k];
  }

  lemma {:induction false} FirstSeenPrefix(a: seq<JoinRow>, b: seq<JoinRow>, n: nat)
    requires n <= |a|
    ensures FirstSeen(a + b, n) == FirstSeen(a, n)
  {
    if n > 0 {
      FirstSeenPrefix(a, b, n - 1);
      var key := Col(a[n - 1].group, FieldID);
      assert forall p :: 0 <= p < n - 1 ==> (a + b)[p] == a[p];
      assert Seen(a + b, n - 1, key) <==> Seen(a, n - 1, key);
    }
  }

  lemma {:induction false} SeenRun(a: seq<JoinRow>, b: seq<JoinRow>, n: nat, g: Row)
    requires n <= |b| && (forall r :: r in b ==> r.group == g) && !Seen(a, |a|, Col(g, FieldID))
    ensures Seen(a + b, |a| + n, Col(g, FieldID)) <==> n > 0
  {
    var all := a + b;
    if n > 0 {
      assert all[|a|] == b[0] && b[0] in b;
    } else {
      assert forall p :: 0 <= p < |a| ==> all[p] == a[p];
    }
  }

  // Rows of one new group add that group once.
  lemma {:induction false} FirstSeenRun(a: seq<JoinRow>, b: seq<JoinRow>, n: nat, g: Row)
    requires n <= |b| && (forall r :: r in b ==> r.group == g) && !Seen(a, |a|, Col(g, FieldID))
    ensures FirstSeen(a + b, |a| + n) == FirstSeen(a, |a|) + if n > 0 then [g] else []
  {
    hide Seen, Col;
    if n == 0 {
      FirstSeenPrefix(a, b, |a|);
      assert FirstSeen(a, |a|) + [] == FirstSeen(a, |a|);
      hide FirstSeen;
    } else {
      FirstSeenRun(a, b, n - 1, g);
      SeenRun(a, b, n - 1, g);
      assert (a + b)[|a| + n - 1] == b[n - 1] && b[n - 1] in b;
    }
  }

  lemma {:induction false} NestedLoopRows(groups: seq<Row>, links: seq<Row>, ids: seq<int>)
    ensures forall r :: r in NestedLoop(groups, links, ids) ==>
      r.group in groups && r.account in ids && Satisfies(LinkedTo(links, [r.account]), r.group)
    ensures forall g, a :: g in groups && a in ids && Satisfies(LinkedTo(links, [a]), g) ==>
      JoinRow(a, g) in NestedLoop(groups, links, ids)
  {
    if groups != [] {
      NestedLoopRows(groups[..|groups| - 1], links, ids);
      LinkRowsPairs(groups[|groups| - 1], links, ids);
    }
  }

  lemma {:induction false} NestedLoopUnseen(groups: seq<Row>, links: seq<Row>, ids: seq<int>)
    requires KeyedByID(groups) && groups != []
    ensures var a := NestedLoop(groups[..|groups| - 1], links, ids); !Seen(a, |a|, Col(groups[|groups| - 1], FieldID))
  {
    var init, g := groups[..|groups| - 1], groups[|groups| - 1];
    var a := NestedLoop(init, links, ids);
    NestedLoopRows(init, links, ids);
    forall p | 0 <= p < |a| ensures Col(a[p].group, FieldID) != Col(g, FieldID) {
      assert a[p] in a;
      var i :| 0 <= i < |init| && init[i] == a[p].group;
      assert groups[i] == init[i];
    }
  }

  lemma {:induction false} NestedLoopOrder(groups: seq<Row>, links: seq<Row>, ids: seq<int>)
    requires KeyedByID(groups)
    ensures var join := NestedLoop(groups, links, ids); FirstSeen(join, |join|) == Select(groups, [LinkedTo(links, ids)])
  {
    hide FirstSeen, LinkRows, Seen, Satisfies, SatisfiesAll;
    if groups != [] {
      var init, g, p := groups[..|groups| - 1], groups[|groups| - 1], LinkedTo(links, ids);
      var a, b := NestedLoop(init, links, ids), LinkRows(g, links, ids);
      NestedLoopOrder(init, links, ids);
      LinkRowsPairs(g, links, ids);
      NestedLoopUnseen(groups, links, ids);
      FirstSeenRun(a, b, |b|, g);
      OnlyPred(p, g);
    } else {
      FirstSeenNone();
    }
  }

  lemma OnlyPred(p: Pred, row: Row)
    ensures SatisfiesAll([p], row) <==> Satisfies(p, row)
  {
    ExtendAll([], p, row);
    assert [] + [p] == [p];
  }

  lemma FirstSeenNone()
    ensures FirstSeen([], 0) == []
  {
  }

  lemma {:induction false} NestedLoopIsJoin(groups: seq<Row>, links: seq<Row>, ids: seq<int>)
    requires KeyedByID(groups)
    ensures IsJoin(NestedLoop(groups, links, ids), groups, links, ids)
  {
    var join := NestedLoop(groups, links, ids);
    NestedLoopRows(groups, links, ids);
    NestedLoopOrder(groups, links, ids);
    forall p | 0 <= p < |join|
      ensures join[p].group in groups && join[p].account in ids && Satisfies(LinkedTo(links, [join[p].account]), join[p].group)
    {
      assert join[p] in join;
    }
    forall g, a | g in groups && a in ids && Satisfies(LinkedTo(links, [a]), g)
      ensures Paired(join, |join|, a, Col(g, FieldID))
    {
      assert JoinRow(a, g) in join;
      var p :| 0 <= p < |join| && join[p] == JoinRow(a, g);
    }
  }

  // The joined query. Callers know only that the answer is a join.
  method QueryJoined(driver: Driver, query: EdgeQuery, ids: seq<int>) returns (join: seq<JoinRow>)
    requires WellFormed(driver.db) && query.table == Groups
    modifies driver`queries
    ensures driver.queries == old(driver.queries) + 1
    ensures IsJoin(join, OtherRows(query.View(), driver.db), driver.db.others(AccountGroups, []), ids)
  {
    var groups := driver.QueryOthers(Groups, query.predicates, query.order);
    SelectKeyed(driver.db.others(Groups, query.order), query.predicates);
    join := NestedLoop(groups, driver.db.others(AccountGroups, []), ids);
    NestedLoopIsJoin(groups, driver.db.others(AccountGroups, []), ids);
  }

  method LoadGroups(driver: Driver, query: EdgeQuery, nodes: seq<Account>, ghost objs: set<Account>,
      ghost ids: seq<int>)
    returns (failed: bool)
    requires WellFormed(driver.db) && query.table == Groups && query.joins == [] && NodeSet(nodes, objs, ids)
    modifies driver`queries, query`joins, objs`groups
    ensures driver.queries <= old(driver.queries) + 1
    ensures failed <==> InvalidOther(old(query.View()), driver.db)
    ensures !failed ==> query.View() == Joined(old(query.View()), ids)
    ensures !failed ==> forall i :: 0 <= i < |nodes| ==> nodes[i].groups == GroupsOf(old(query.View()), ids[i], driver.db)
  {
    hide PairIndexed, IsJoin, FirstSeen, GroupShare, GroupsOf;
    ghost var q := query.View();
    var edgeIDs, byID := IndexNodes(nodes, objs, ids);
    for i := 0 to |nodes|
      modifies objs`groups
      invariant forall k :: 0 <= k < i ==> nodes[k].groups == []
    {
      nodes[i].groups := [];
    }
    query.Join(edgeIDs);
    var invalid := InvalidFields(driver, query);
    if invalid { return true; }
    var join := QueryJoined(driver, query, edgeIDs);
    JoinKeys(q, join, ids, driver.db);
    var neighbors, nids := ScanJoin(query, driver.db.groupColumns, join, nodes, byID, objs, ids);
    assert neighbors == ProjectAll(q, FirstSeen(join, |join|));
    failed := DistributeGroups(nodes, nids, neighbors, objs, ids, join);
    forall i | 0 <= i < |nodes| ensures nodes[i].groups == GroupsOf(q, ids[i], driver.db) {
      GroupLookup(q, join, ids, ids[i], driver.db);
    }
  }

  lemma {:induction false} JoinKeys(q: EdgeTree, join: seq<JoinRow>, ids: seq<int>, db: DB)
    requires WellFormed(db) && q.table == Groups
    requires IsJoin(join, OtherRows(q, db), db.others(AccountGroups, []), ids)
    ensures forall p :: 0 <= p < |join| ==> Col(join[p].group, FieldID).Int?
    ensures var neighbors := ProjectAll(q, FirstSeen(join, |join|));
      forall j :: 0 <= j < |neighbors| ==> Col(neighbors[j], FieldID).Int? && Seen(join, |join|, Col(neighbors[j], FieldID))
  {
    SelectKeyed(db.others(q.table, q.order), q.preds);
    var seen := FirstSeen(join, |join|);
    forall j | 0 <= j < |seen|
      ensures Col(seen[j], FieldID).Int? && Col(ProjectOther(q, seen[j]), FieldID) == Col(seen[j], FieldID)
    {
      assert seen[j] in seen;
      ProjectKeeps(q, FieldID, seen[j]);
    }
  }
}
