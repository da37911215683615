// Clone: a deep copy of a query builder with the builders of its edges.
module QueryClone {
  import opened AccountEntity
  import opened Relational
  import opened QueryModel
  import opened QueryBuilder
  import opened EdgeLoading
  import opened EagerLoading

  method CloneEdge(e: EdgeQuery?) returns (c: EdgeQuery?)
    ensures e == null <==> c == null
    ensures fresh(Single(c)) && EdgeView(c) == EdgeView(e)
    ensures c != null ==> c.table == e.table
  {
    if e == null {
      return null;
    }
    c := new EdgeQuery(e.table);
    c.fields, c.predicates, c.order, c.joins := e.fields, e.predicates, e.order, e.joins;
  }

  // The clone stands for the same query and shares no builder with the original.
  method Clone(q: AccountQuery?) returns (c: AccountQuery?)
    requires q != null ==> q.Valid()
    ensures q == null <==> c == null
    ensures c != null ==> c.Valid()
    ensures fresh(ReprOf(c)) && fresh(EdgesOf(c)) && TreeView(c) == old(TreeView(q))
    decreases if q == null then {} else q.Repr, 2
  {
    if q == null {
      return null;
    }
    hide AccountQuery.View, AccountQuery.Valid;
    c := CloneTree(q);
  }

  method CloneTree(q: AccountQuery) returns (c: AccountQuery)
    requires q.Valid()
    ensures c.Valid() && fresh(c.Repr) && fresh(c.Edges) && c.View() == old(q.View())
    decreases q.Repr, 1
  {
    ViewParts(q);
    hide AccountQuery.View, AccountQuery.Valid, EdgeView, TreeView;
    var parent, children := CloneAccounts(q);
    c := CloneAround(q, parent, children);
  }

  // The rest of the clone, once the account queries of the two edges are cloned.
  method CloneAround(q: AccountQuery, parent: AccountQuery?, children: AccountQuery?) returns (c: AccountQuery)
    requires q.Valid()
    requires (parent != null ==> parent.Valid()) && (children != null ==> children.Valid())
    requires ReprOf(parent) !! ReprOf(children) && EdgesOf(parent) !! EdgesOf(children)
    requires TreeView(parent) == q.View().parent && TreeView(children) == q.View().children
    ensures c.Valid() && c.View() == old(q.View())
    ensures fresh(c.Repr - ReprOf(parent) - ReprOf(children)) && fresh(c.Edges - EdgesOf(parent) - EdgesOf(children))
  {
    ViewParts(q);
    ghost var v := q.View();
    hide AccountQuery.View, AccountQuery.Valid, EdgeView, TreeView;
    var groups, proxy, usageLogs, accountGroups := CloneOthers(q, EdgesOf(parent) + EdgesOf(children));
    c := Compose(v, q, groups, proxy, parent, children, usageLogs, accountGroups);
  }

  method Compose(ghost v: QueryTree, q: AccountQuery, groups: EdgeQuery?, proxy: EdgeQuery?, parent: AccountQuery?,
                 children: AccountQuery?, usageLogs: EdgeQuery?, accountGroups: EdgeQuery?)
    returns (c: AccountQuery)
    requires groups != null ==> groups.table == Groups
    requires proxy != null ==> proxy.table == Proxies
    requires usageLogs != null ==> usageLogs.table == UsageLogs
    requires accountGroups != null ==> accountGroups.table == AccountGroups
    requires (parent != null ==> parent.Valid()) && (children != null ==> children.Valid())
    requires ReprOf(parent) !! ReprOf(children) && EdgesOf(parent) !! EdgesOf(children)
    requires FourOf(groups, proxy, usageLogs, accountGroups) !! EdgesOf(parent) + EdgesOf(children)
    requires v == QueryTree(q.fields, q.predicates, q.order, EdgeView(groups), EdgeView(proxy), TreeView(parent),
                            TreeView(children), EdgeView(usageLogs), EdgeView(accountGroups))
    ensures c.Valid() && c.View() == v && fresh(c)
    ensures c.Repr == {c} + ReprOf(parent) + ReprOf(children)
    ensures c.Edges == FourOf(groups, proxy, usageLogs, accountGroups) + EdgesOf(parent) + EdgesOf(children)
  {
    hide AccountQuery.View, AccountQuery.Valid, EdgeView, TreeView;
    c := new AccountQuery(q.fields, q.predicates, q.order, groups, proxy, parent, children, usageLogs, accountGroups);
  }

  ghost function FourOf(groups: EdgeQuery?, proxy: EdgeQuery?, usageLogs: EdgeQuery?,
      accountGroups: EdgeQuery?): set<EdgeQuery> {
    Single(groups) + Single(proxy) + Single(usageLogs) + Single(accountGroups)
  }

  method CloneOthers(q: AccountQuery, ghost others: set<EdgeQuery>)
    returns (groups: EdgeQuery?, proxy: EdgeQuery?, usageLogs: EdgeQuery?, accountGroups: EdgeQuery?)
    requires q.Valid()
    ensures groups != null ==> groups.table == Groups
    ensures proxy != null ==> proxy.table == Proxies
    ensures usageLogs != null ==> usageLogs.table == UsageLogs
    ensures accountGroups != null ==> accountGroups.table == AccountGroups
    ensures fresh(FourOf(groups, proxy, usageLogs, accountGroups)) && FourOf(groups, proxy, usageLogs, accountGroups) !! others
    ensures EdgeView(groups) == q.View().groups && EdgeView(proxy) == q.View().proxy
    ensures EdgeView(usageLogs) == q.View().usageLogs && EdgeView(accountGroups) == q.View().accountGroups
  {
    ViewParts(q);
    BuildersApart(q);
    hide AccountQuery.View, AccountQuery.Valid, EdgeView;
    groups := CloneEdge(q.withGroups);
    proxy := CloneEdge(q.withProxy);
    usageLogs := CloneEdge(q.withUsageLogs);
    accountGroups := CloneEdge(q.withAccountGroups);
  }

  method CloneAccounts(q: AccountQuery) returns (parent: AccountQuery?, children: AccountQuery?)
    requires q.Valid()
    ensures (parent != null ==> parent.Valid()) && (children != null ==> children.Valid())
    ensures fresh(ReprOf(parent)) && fresh(EdgesOf(parent)) && fresh(ReprOf(children)) && fresh(EdgesOf(children))
    ensures ReprOf(parent) !! ReprOf(children) && EdgesOf(parent) !! EdgesOf(children)
    ensures TreeView(parent) == q.View().parent && TreeView(children) == q.View().children
    decreases q.Repr, 0
  {
    ViewParts(q);
    BuildersApart(q);
    hide AccountQuery.View, AccountQuery.Valid;
    parent := Clone(q.withParent);
    children := Clone(q.withChildren);
  }

  // Running a clone leaves the original as it was, so that a query object can be run any
  // number of times, also when it loads groups.
  method LoadClone(driver: Driver, q: AccountQuery) returns (failed: bool, nodes: seq<Account>, ghost fp: set<Account>)
    requires WellFormed(driver.db) && q.Valid() && Unjoined(q.View())
    modifies driver`queries
    ensures q.View() == old(q.View())
    ensures failed <==> Fails(q.View(), driver.db)
    ensures !failed ==> RepresentsAll(nodes, Forest(q.View(), driver.db), fp)
  {
    hide AccountQuery.View, AccountQuery.Valid, Forest, Fails, AfterRun, Represents, Unjoined;
    var c := Clone(q);
    failed, nodes, fp := All(driver, c);
  }
}
