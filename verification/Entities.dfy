/**
 The structs that eager loading fills. Their columns are fixed once a row is scanned, so they are constants here;
 their edges are assigned by the loaders. `columns` are those the scan filled, `scanned` is what they left of the
 database row `origin`.
 A nil slice is `None`: an edge that was not requested stays nil, a requested one never is.
 */
module Entities {
  import opened Prelude
  import opened Store
  import RowScan

  class Proxy {
    const row: ProxyRow

    constructor (row: ProxyRow)
      ensures this.row == row
    {
      this.row := row;
    }
  }

  class Group {
    const row: GroupRow

    constructor (row: GroupRow)
      ensures this.row == row
    {
      this.row := row;
    }
  }

  class UsageLog {
    const columns: seq<UsageColumn>
    const scanned: UsageRow
    ghost const origin: UsageRow

    constructor (columns: seq<UsageColumn>, scanned: UsageRow, ghost origin: UsageRow)
      ensures this.columns == columns && this.scanned == scanned && this.origin == origin
    {
      this.columns, this.scanned, this.origin := columns, scanned, origin;
    }
  }

  /** `loadedTypes`: which edges the query requested. */
  datatype Loaded = Loaded(groups: bool, proxy: bool, parent: bool, children: bool, usageLogs: bool, links: bool)

  class Account {
    const columns: seq<RowScan.Column>
    const scanned: AccountRow
    ghost const origin: AccountRow
    const loaded: Loaded
    var groups: Option<seq<Group>>
    var proxy: Proxy?
    var parent: Account?
    var children: Option<seq<Account>>
    var usageLogs: Option<seq<UsageLog>>
    var links: Option<seq<AccountGroup>>

    constructor (columns: seq<RowScan.Column>, scanned: AccountRow, ghost origin: AccountRow, loaded: Loaded)
      ensures this.columns == columns && this.scanned == scanned && this.origin == origin && this.loaded == loaded
      ensures groups == None && proxy == null && parent == null
      ensures children == None && usageLogs == None && links == None
    {
      this.columns, this.scanned, this.origin, this.loaded := columns, scanned, origin, loaded;
      groups, proxy, parent := None, null, null;
      children, usageLogs, links := None, None, None;
    }

    function GroupsOrErr(): Result<Option<seq<Group>>>
      reads this`groups
    {
      if loaded.groups then Ok(groups) else Err(NotLoaded("groups"))
    }

    function ProxyOrErr(): Result<Proxy>
      reads this`proxy
    {
      if proxy != null then Ok(proxy)
      else if loaded.proxy then Err(NotFound("proxy"))
      else Err(NotLoaded("proxy"))
    }

    function ParentOrErr(): Result<Account>
      reads this`parent
    {
      if parent != null then Ok(parent)
      else if loaded.parent then Err(NotFound("account"))
      else Err(NotLoaded("parent"))
    }

    function ChildrenOrErr(): Result<Option<seq<Account>>>
      reads this`children
    {
      if loaded.children then Ok(children) else Err(NotLoaded("children"))
    }

    function UsageLogsOrErr(): Result<Option<seq<UsageLog>>>
      reads this`usageLogs
    {
      if loaded.usageLogs then Ok(usageLogs) else Err(NotLoaded("usage_logs"))
    }

    function AccountGroupsOrErr(): Result<Option<seq<AccountGroup>>>
      reads this`links
    {
      if loaded.links then Ok(links) else Err(NotLoaded("account_groups"))
    }
  }

  /** The join entity of the `account_groups` table. */
  class AccountGroup {
    const columns: seq<LinkColumn>
    const scanned: LinkRow
    ghost const origin: LinkRow
    const accountRequested: bool
    const groupRequested: bool
    var account: Account?
    var group: Group?

    constructor (columns: seq<LinkColumn>, scanned: LinkRow, ghost origin: LinkRow,
                 accountRequested: bool, groupRequested: bool)
      ensures this.columns == columns && this.scanned == scanned && this.origin == origin
      ensures this.accountRequested == accountRequested && this.groupRequested == groupRequested
      ensures account == null && group == null
    {
      this.columns, this.scanned, this.origin := columns, scanned, origin;
      this.accountRequested, this.groupRequested := accountRequested, groupRequested;
      account, group := null, null;
    }
  }

  /** On any struct: a list accessor goes by its flag alone, a unique one by the pointer and then by its flag. */
  lemma {:induction false} AccessorOutcomes(n: Account)
    ensures n.GroupsOrErr().Ok? <==> n.loaded.groups
    ensures n.ChildrenOrErr().Ok? <==> n.loaded.children
    ensures n.UsageLogsOrErr().Ok? <==> n.loaded.usageLogs
    ensures n.AccountGroupsOrErr().Ok? <==> n.loaded.links
    ensures n.GroupsOrErr().Ok? ==> n.GroupsOrErr().value == n.groups
    ensures n.ChildrenOrErr().Ok? ==> n.ChildrenOrErr().value == n.children
    ensures n.UsageLogsOrErr().Ok? ==> n.UsageLogsOrErr().value == n.usageLogs
    ensures n.AccountGroupsOrErr().Ok? ==> n.AccountGroupsOrErr().value == n.links
    ensures n.ProxyOrErr().Ok? <==> n.proxy != null
    ensures n.ParentOrErr().Ok? <==> n.parent != null
    ensures n.ProxyOrErr() == Err(NotFound("proxy")) <==> n.proxy == null && n.loaded.proxy
    ensures n.ParentOrErr() == Err(NotFound("account")) <==> n.parent == null && n.loaded.parent
  {
  }
}
