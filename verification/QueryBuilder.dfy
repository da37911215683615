// The query builder objects. A run appends predicates, fields and joins to the builders
// of the edges; which edges are requested does not change during a run.
module QueryBuilder {
  import opened Common
  import opened AccountSchema
  import opened Relational
  import opened QueryModel

  // GroupQuery, ProxyQuery, UsageLogQuery and AccountGroupQuery, told apart by the table.
  class EdgeQuery {
    const table: Table
    var fields: seq<Column>
    var predicates: seq<Pred>
    var order: seq<OrderOption>
    var joins: seq<seq<int>>

    constructor (table: Table)
      ensures View() == EdgeTree(table, [], [], [], [])
    {
      this.table := table;
      fields, predicates, order, joins := [], [], [], [];
    }

    ghost function View(): EdgeTree
      reads this
    {
      EdgeTree(table, fields, predicates, order, joins)
    }

    method Where(p: Pred)
      modifies this`predicates
      ensures predicates == old(predicates) + [p]
    {
      predicates := predicates + [p];
    }

    method Join(ids: seq<int>)
      modifies this`joins
      ensures joins == old(joins) + [ids]
    {
      joins := joins + [ids];
    }

    method AppendFieldOnce(c: Column)
      modifies this`fields
      ensures fields == AppendOnce(old(fields), c)
    {
      if c !in fields {
        fields := fields + [c];
      }
    }
  }

  ghost predicate Owns(e: EdgeQuery?, t: Table, edges: set<EdgeQuery>) { e != null ==> e in edges && e.table == t }
  ghost predicate Foreign(e: EdgeQuery?, edges: set<EdgeQuery>) { e != null ==> e !in edges }
  ghost predicate AllForeign(g: EdgeQuery?, x: EdgeQuery?, u: EdgeQuery?, a: EdgeQuery?, edges: set<EdgeQuery>) {
    Foreign(g, edges) && Foreign(x, edges) && Foreign(u, edges) && Foreign(a, edges)
  }
  ghost function EdgeView(e: EdgeQuery?): Option<EdgeTree>
    reads e
  {
    if e != null then Some(e.View()) else None
  }
  ghost function Single(e: EdgeQuery?): set<EdgeQuery> { if e != null then {e} else {} }

  class AccountQuery {
    var fields: seq<Column>
    var predicates: seq<Pred>
    var order: seq<OrderOption>
    const withGroups: EdgeQuery?
    const withProxy: EdgeQuery?
    const withParent: AccountQuery?
    const withChildren: AccountQuery?
    const withUsageLogs: EdgeQuery?
    const withAccountGroups: EdgeQuery?
    // The account queries and the other queries of this tree.
    ghost const Repr: set<AccountQuery>
    ghost const Edges: set<EdgeQuery>

    // The builders form a tree.
    ghost predicate Valid()
      decreases Repr
    {
      && this in Repr
      && Owns(withGroups, Groups, Edges) && Owns(withProxy, Proxies, Edges)
      && Owns(withUsageLogs, UsageLogs, Edges) && Owns(withAccountGroups, AccountGroups, Edges)
      && (withParent != null ==> (
          && withParent in Repr && withParent.Repr < Repr && this !in withParent.Repr
          && withParent.Edges <= Edges && Apart(withParent.Edges) && withParent.Valid()))
      && (withChildren != null ==> (
          && withChildren in Repr && withChildren.Repr < Repr && this !in withChildren.Repr
          && withChildren.Edges <= Edges && Apart(withChildren.Edges) && withChildren.Valid()))
      && (withParent != null && withChildren != null ==> (
          withParent.Repr !! withChildren.Repr && withParent.Edges !! withChildren.Edges))
    }

    // The edge builders of this query are not among `others`.
    ghost predicate Apart(others: set<EdgeQuery>) {
      AllForeign(withGroups, withProxy, withUsageLogs, withAccountGroups, others)
    }

    // The tree as a value.
    ghost function View(): QueryTree
      requires Valid()
      reads Repr, Edges
      decreases Repr
    {
      QueryTree(
        fields, predicates, order,
        EdgeView(withGroups), EdgeView(withProxy),
        if withParent != null then Some(withParent.View()) else None,
        if withChildren != null then Some(withChildren.View()) else None,
        EdgeView(withUsageLogs), EdgeView(withAccountGroups))
    }

    // A query over the given edge queries, which no other query may share.
    constructor (fields: seq<Column>, predicates: seq<Pred>, order: seq<OrderOption>,
                 groups: EdgeQuery?, proxy: EdgeQuery?, parent: AccountQuery?,
                 children: AccountQuery?, usageLogs: EdgeQuery?, accountGroups: EdgeQuery?)
      requires groups != null ==> groups.table == Groups
      requires proxy != null ==> proxy.table == Proxies
      requires usageLogs != null ==> usageLogs.table == UsageLogs
      requires accountGroups != null ==> accountGroups.table == AccountGroups
      requires parent != null ==> parent.Valid()
      requires children != null ==> children.Valid()
      requires parent != null ==> AllForeign(groups, proxy, usageLogs, accountGroups, parent.Edges)
      requires children != null ==> AllForeign(groups, proxy, usageLogs, accountGroups, children.Edges)
      requires parent != null && children != null ==> parent.Repr !! children.Repr && parent.Edges !! children.Edges
      ensures Valid()
      ensures Repr == {this} + (if parent != null then parent.Repr else {}) + (if children != null then children.Repr else {})
      ensures Edges == Single(groups) + Single(proxy) + Single(usageLogs) + Single(accountGroups)
        + (if parent != null then parent.Edges else {}) + (if children != null then children.Edges else {})
      ensures this.fields == fields && this.predicates == predicates && this.order == order
      ensures withGroups == groups && withProxy == proxy && withParent == parent
      ensures withChildren == children && withUsageLogs == usageLogs && withAccountGroups == accountGroups
      ensures View() == QueryTree(fields, predicates, order, EdgeView(groups), EdgeView(proxy), TreeView(parent),
                                  TreeView(children), EdgeView(usageLogs), EdgeView(accountGroups))
    {
      this.fields, this.predicates, this.order := fields, predicates, order;
      withGroups, withProxy, withParent, withChildren := groups, proxy, parent, children;
      withUsageLogs, withAccountGroups := usageLogs, accountGroups;
      Repr := {this} + (if parent != null then parent.Repr else {}) + (if children != null then children.Repr else {});
      Edges := Single(groups) + Single(proxy) + Single(usageLogs) + Single(accountGroups)
        + (if parent != null then parent.Edges else {}) + (if children != null then children.Edges else {});
    }

    method Where(p: Pred)
      modifies this`predicates
      ensures predicates == old(predicates) + [p]
    {
      predicates := predicates + [p];
    }

    method AppendFieldOnce(c: Column)
      modifies this`fields
      ensures fields == AppendOnce(old(fields), c)
    {
      if c !in fields {
        fields := fields + [c];
      }
    }
  }

  ghost function TreeView(q: AccountQuery?): Option<QueryTree>
    requires q != null ==> q.Valid()
    reads if q != null then q.Repr else {}, if q != null then q.Edges else {}
  {
    if q != null then Some(q.View()) else None
  }
}
