/**
 The database behind the loaders: tables as sequences of rows, edge queries as values, and the driver as an oracle.
 A query may fail, and otherwise returns exactly the matching rows, in an order of the driver's choice.
 Rows carry keys only; the data columns are the subject of `RowScan`.
 */
module Store {
  import opened Prelude
  import RowScan

  type Id = int

  datatype AccountRow = AccountRow(id: Id, proxyId: Option<Id>, parentId: Option<Id>)
  datatype ProxyRow = ProxyRow(id: Id)
  datatype GroupRow = GroupRow(id: Id)
  datatype UsageRow = UsageRow(id: Id, accountId: Id)
  datatype LinkRow = LinkRow(accountId: Id, groupId: Id)

  /** The tables, and whether the driver can be relied on: if it cannot, any query may fail. */
  datatype Database = Database(
    reliable: bool,
    accounts: seq<AccountRow>,
    proxies: seq<ProxyRow>,
    groups: seq<GroupRow>,
    usageLogs: seq<UsageRow>,
    links: seq<LinkRow>)
  {
    /** The primary keys of the schema. */
    ghost predicate Valid() {
      && (forall i, j :: 0 <= i < j < |accounts| ==> accounts[i].id != accounts[j].id)
      && (forall i, j :: 0 <= i < j < |proxies| ==> proxies[i].id != proxies[j].id)
      && (forall i, j :: 0 <= i < j < |groups| ==> groups[i].id != groups[j].id)
    }

    /** The primary key of the join table. The loaders do not depend on it. */
    ghost predicate LinksAreKeyed() {
      forall i, j :: 0 <= i < j < |links| ==> links[i] != links[j]
    }
  }

  datatype ProxyQuery = ProxyQuery(where: ProxyRow -> bool)
  datatype GroupQuery = GroupQuery(where: GroupRow -> bool)

  /**
   The group query of the many-to-many edge: besides its predicates it holds the joins that earlier runs left on it,
   each with the account ids it was for.
   */
  datatype GroupsQuery = GroupsQuery(groups: GroupQuery, joins: seq<seq<Id>>)

  /** `UsageData` is any other column of the table, `UsageOther` a name that is none. */
  datatype UsageColumn = UsageID | UsageAccountID | UsageData(column: string) | UsageOther(name: string)
  datatype LinkColumn = LinkAccountID | LinkGroupID | LinkPriority | LinkCreatedAt | LinkOther(name: string)

  datatype UsageQuery = UsageQuery(fields: seq<UsageColumn>, where: UsageRow -> bool)

  /** A query on accounts: its `Select` fields, its own predicates, and the edges to load eagerly. */
  datatype AccountQuery = AccountQuery(
    fields: seq<RowScan.Column>,
    where: AccountRow -> bool,
    withGroups: Option<GroupsQuery>,
    withProxy: Option<ProxyQuery>,
    withParent: Option<AccountQuery>,
    withChildren: Option<AccountQuery>,
    withUsageLogs: Option<UsageQuery>,
    withLinks: Option<LinkQuery>)

  datatype LinkQuery = LinkQuery(
    fields: seq<LinkColumn>,
    where: LinkRow -> bool,
    withAccount: Option<AccountQuery>,
    withGroup: Option<GroupQuery>)

  /** No predicate. */
  function Anything(): AccountRow -> bool { (r: AccountRow) => true }

  datatype Error =
    | DriverError
    | InvalidField
    | UnexpectedNode(id: Id)
    | NilForeignKey(id: Id)
    | Panic
    | UnexpectedReference(key: Id)
    | NotLoaded(edge: string)
    | NotFound(name: string)
    | NotSingular(name: string)

  datatype Result<+T> = Ok(value: T) | Err(error: Error)

  /** The driver: it fails, unless it is reliable, or returns the matching rows in any order. */
  method Execute<Row(==)>(reliable: bool, table: seq<Row>, matches: Row -> bool) returns (r: Result<seq<Row>>)
    ensures r.Ok? ==> multiset(r.value) == multiset(Filter(table, matches))
    ensures r.Err? ==> r.error == DriverError && !reliable
  {
    if !reliable {
      if * {
        return Err(DriverError);
      }
    }
    var rows :| multiset(rows) == multiset(Filter(table, matches));
    return Ok(rows);
  }

  /** The join that `loadGroups` adds: each link with the group it names. */
  function Join(links: seq<LinkRow>, groups: seq<GroupRow>): seq<(Id, GroupRow)> {
    if links == [] then [] else JoinOne(links[0], groups) + Join(links[1..], groups)
  }

  function JoinOne(link: LinkRow, groups: seq<GroupRow>): seq<(Id, GroupRow)> {
    if groups == [] then []
    else (if groups[0].id == link.groupId then [(link.accountId, groups[0])] else []) + JoinOne(link, groups[1..])
  }

  lemma {:induction false} JoinOneMembers(link: LinkRow, groups: seq<GroupRow>, a: Id, g: GroupRow)
    ensures (a, g) in JoinOne(link, groups) <==> g in groups && link == LinkRow(a, g.id)
  {
    if groups != [] {
      JoinOneMembers(link, groups[1..], a, g);
    }
  }

  lemma {:induction false} JoinMembers(links: seq<LinkRow>, groups: seq<GroupRow>, a: Id, g: GroupRow)
    ensures (a, g) in Join(links, groups) <==> g in groups && LinkRow(a, g.id) in links
  {
    if links != [] {
      JoinOneMembers(links[0], groups, a, g);
      JoinMembers(links[1..], groups, a, g);
    }
  }

  // ---------------------------------------------------------------- joining once more

  /** Some link of the group belongs to one of the accounts. */
  ghost predicate Linked(links: seq<LinkRow>, accounts: seq<Id>, g: Id) {
    exists l :: l in links && l.groupId == g && l.accountId in accounts
  }

  /** One joined row against the link table again: it comes back once for every link it meets there. */
  function Repeated(row: (Id, GroupRow), links: seq<LinkRow>, accounts: seq<Id>): seq<(Id, GroupRow)> {
    if links == [] then []
    else (if links[0].groupId == row.1.id && links[0].accountId in accounts then [row] else [])
         + Repeated(row, links[1..], accounts)
  }

  function JoinAgain(rows: seq<(Id, GroupRow)>, links: seq<LinkRow>, accounts: seq<Id>): seq<(Id, GroupRow)> {
    if rows == [] then [] else Repeated(rows[0], links, accounts) + JoinAgain(rows[1..], links, accounts)
  }

  /** The join of this run, and those that earlier runs left on the query. */
  function JoinAll(links: seq<LinkRow>, groups: seq<GroupRow>, joins: seq<seq<Id>>): seq<(Id, GroupRow)> {
    if joins == [] then Join(links, groups)
    else JoinAgain(JoinAll(links, groups, joins[..|joins| - 1]), links, joins[|joins| - 1])
  }

  ghost predicate InJoins(links: seq<LinkRow>, joins: seq<seq<Id>>, g: Id) {
    forall accounts :: accounts in joins ==> Linked(links, accounts, g)
  }

  lemma {:induction false} RepeatedMembers(row: (Id, GroupRow), links: seq<LinkRow>, accounts: seq<Id>,
                                           other: (Id, GroupRow))
    ensures other in Repeated(row, links, accounts) <==> other == row && Linked(links, accounts, row.1.id)
  {
    if links != [] {
      RepeatedMembers(row, links[1..], accounts, other);
      assert links == [links[0]] + links[1..];
    }
  }

  lemma {:induction false} JoinAgainMembers(rows: seq<(Id, GroupRow)>, links: seq<LinkRow>, accounts: seq<Id>,
                                            row: (Id, GroupRow))
    ensures row in JoinAgain(rows, links, accounts) <==> row in rows && Linked(links, accounts, row.1.id)
  {
    if rows != [] {
      RepeatedMembers(rows[0], links, accounts, row);
      JoinAgainMembers(rows[1..], links, accounts, row);
      assert rows == [rows[0]] + rows[1..];
    }
  }

  lemma {:induction false} JoinAllMembers(links: seq<LinkRow>, groups: seq<GroupRow>, joins: seq<seq<Id>>, a: Id,
                                          g: GroupRow)
    ensures (a, g) in JoinAll(links, groups, joins) <==>
            g in groups && LinkRow(a, g.id) in links && InJoins(links, joins, g.id)
    decreases |joins|
  {
    if joins == [] {
      JoinMembers(links, groups, a, g);
    } else {
      var before, last := joins[..|joins| - 1], joins[|joins| - 1];
      assert joins == before + [last];
      JoinAllMembers(links, groups, before, a, g);
      JoinAgainMembers(JoinAll(links, groups, before), links, last, (a, g));
    }
  }

  // ---------------------------------------------------------------- first occurrences

  /** The elements of `s` without repetition, each at its first occurrence. */
  function Distinct<T(==)>(s: seq<T>): (r: seq<T>)
    ensures forall x :: x in r ==> x in s
    ensures forall x :: x in s ==> x in r
    ensures forall i, j :: 0 <= i < j < |r| ==> r[i] != r[j]
  {
    if s == [] then []
    else
      var before, x := Distinct(s[..|s| - 1]), s[|s| - 1];
      assert s == s[..|s| - 1] + [x];
      if x in before then before else before + [x]
  }

  lemma {:induction false} DistinctPrefix<T>(s: seq<T>, n: nat)
    requires n <= |s|
    ensures Distinct(s[..n]) <= Distinct(s)
    decreases |s|
  {
    if n < |s| {
      assert s[..|s| - 1][..n] == s[..n];
      DistinctPrefix(s[..|s| - 1], n);
    } else {
      assert s[..n] == s;
    }
  }

  /** A first occurrence takes the next place: `Distinct` keeps the order of first occurrences. */
  lemma {:induction false} DistinctOrder<T>(s: seq<T>, j: nat)
    requires j < |s| && s[j] !in s[..j]
    ensures |Distinct(s[..j])| < |Distinct(s)| && Distinct(s)[|Distinct(s[..j])|] == s[j]
  {
    assert s[..j + 1][..j] == s[..j];
    assert Distinct(s[..j + 1]) == Distinct(s[..j]) + [s[j]];
    DistinctPrefix(s, j + 1);
  }
}
