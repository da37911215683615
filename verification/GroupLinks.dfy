// AccountGroupCreate, the builder of a join row: its defaults, check and createSpec. The
// groups edges of accounts take the fields of their join rows from it, and its bulk runs
// the same chain as that of accounts.
module GroupLinks {
  import opened Common
  import opened AccountSchema
  import opened AccountMutations
  import opened BulkChain
  import BulkTheorems

  // The fields of a join row.
  datatype JoinFields = JoinFields(priority: int, createdAt: int)

  // The ids of the two edges are also the values of account_id and group_id.
  datatype LinkMutation = LinkMutation(account: Option<Int64>, group: Option<Int64>, priority: Option<int>, createdAt: Option<int>)

  const NewLink: LinkMutation := LinkMutation(None, None, None, None)

  datatype LinkError = MissingAccount | MissingGroup | MissingPriority | MissingCreatedAt

  // The row to insert, None for a column that is not set, and the struct that is returned.
  datatype LinkSpec = LinkSpec(priority: Option<int>, createdAt: Option<int>, account: Option<Int64>, group: Option<Int64>)

  datatype LinkNode = LinkNode(accountID: int, groupID: int, priority: int, createdAt: int)

  function AfterLinkDefaults(rt: Runtime, m: LinkMutation): LinkMutation {
    m.(priority := Or(m.priority, rt.joinPriority), createdAt := Or(m.createdAt, rt.joinCreatedAt))
  }

  function CheckLink(m: LinkMutation): Option<LinkError> {
    if m.account.None? then Some(MissingAccount)
    else if m.group.None? then Some(MissingGroup)
    else if m.priority.None? then Some(MissingPriority)
    else if m.createdAt.None? then Some(MissingCreatedAt)
    else None
  }

  class AccountGroupCreate {
    var mutation: LinkMutation

    constructor (m: LinkMutation)
      ensures mutation == m
    {
      mutation := m;
    }

    method Defaults(rt: Runtime)
      modifies this
      ensures mutation == AfterLinkDefaults(rt, old(mutation))
    {
      if mutation.priority.None? {
        mutation := mutation.(priority := Some(rt.joinPriority));
      }
      if mutation.createdAt.None? {
        mutation := mutation.(createdAt := Some(rt.joinCreatedAt));
      }
    }

    method CreateSpec() returns (node: LinkNode, spec: LinkSpec)
      ensures spec == LinkSpec(mutation.priority, mutation.createdAt, mutation.account, mutation.group)
      ensures node == LinkNode(Get(mutation.account, 0), Get(mutation.group, 0), Get(mutation.priority, 0), Get(mutation.createdAt, 0))
    {
      node, spec := LinkNode(0, 0, 0, 0), LinkSpec(None, None, None, None);
      if mutation.priority.Some? {
        spec := spec.(priority := mutation.priority);
        node := node.(priority := mutation.priority.value);
      }
      if mutation.createdAt.Some? {
        spec := spec.(createdAt := mutation.createdAt);
        node := node.(createdAt := mutation.createdAt.value);
      }
      if mutation.account.Some? {
        node := node.(accountID := mutation.account.value);
        spec := spec.(account := mutation.account);
      }
      if mutation.group.Some? {
        node := node.(groupID := mutation.group.value);
        spec := spec.(group := mutation.group);
      }
    }
  }

  // The fields that a groups edge gives its join rows: those of the spec of a new builder
  // after defaults, which is not checked and has no ids of its own.
  method JoinRowFields(rt: Runtime) returns (join: JoinFields)
    ensures join == JoinFields(rt.joinPriority, rt.joinCreatedAt)
    ensures CheckLink(AfterLinkDefaults(rt, NewLink)) == Some(MissingAccount)
  {
    var create := new AccountGroupCreate(NewLink);
    create.Defaults(rt);
    var _, spec := create.CreateSpec();
    join := JoinFields(spec.priority.value, spec.createdAt.value);
  }

  // After defaults, only a missing end can fail the check.
  lemma LinkDefaultsComplete(rt: Runtime, m: LinkMutation)
    ensures CheckLink(AfterLinkDefaults(rt, m)).None? <==> m.account.Some? && m.group.Some?
    ensures AfterLinkDefaults(rt, AfterLinkDefaults(rt, m)) == AfterLinkDefaults(rt, m)
  {
  }

  predicate CompleteLink(m: LinkMutation) {
    m.account.Some? && m.group.Some? && m.priority.Some? && m.createdAt.Some?
  }

  // Every join row that the bulk's chain builds for builder k has both ends and both
  // fields, exactly when that is so of the mutation that reaches it unchecked, if any.
  lemma LinksAreComplete(s: Setup<LinkMutation, LinkError>, b: Option<DriverError>, k: nat)
    requires k < |s.builders| && forall m :: s.check(m) == CheckLink(m)
    ensures (forall m :: Built(k, m) in BulkTheorems.Whole(s, b).log ==> CompleteLink(m))
      <==> (BulkTheorems.Unchecked(s, k).Some? ==> CompleteLink(BulkTheorems.Unchecked(s, k).value))
  {
    BulkTheorems.BuiltHas(s, b, k, m => CompleteLink(m));
  }
}
