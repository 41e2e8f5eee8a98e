/**
 The columns a query asks for. With `Select` only some are fetched, and `querySpec` must still fetch the id and the
 foreign keys that eager loading will need.
 */
module Projection {
  import opened Prelude
  import opened RowScan
  import opened Store

  /** `AddColumnOnce` and `AppendFieldOnce`. */
  function AddOnce<T(==)>(columns: seq<T>, c: T): seq<T> {
    if c in columns then columns else columns + [c]
  }

  function AddOnceIf<T(==)>(columns: seq<T>, c: T, needed: bool): seq<T> {
    if needed then AddOnce(columns, c) else columns
  }

  function NotId(): Column -> bool {
    c => c != ID
  }

  /** The column list of `AccountQuery.querySpec` for the selected fields. */
  function SpecColumns(q: AccountQuery, fields: seq<Column>): seq<Column> {
    if fields == [] then ALL_COLUMNS else SelectedColumns(q, fields)
  }

  function SelectedColumns(q: AccountQuery, fields: seq<Column>): seq<Column> {
    AddOnceIf(AddOnceIf([ID] + Filter(fields, NotId()), ProxyID, q.withProxy.Some?),
              ParentAccountID, q.withParent.Some?)
  }

  method QuerySpecColumns(q: AccountQuery, fields: seq<Column>) returns (columns: seq<Column>)
    ensures columns == SpecColumns(q, fields)
  {
    if |fields| == 0 {
      return ALL_COLUMNS;
    }
    columns := [ID];
    for i := 0 to |fields|
      invariant columns == [ID] + Filter(fields[..i], NotId())
    {
      FilterSnoc(fields, i, NotId());
      if fields[i] != ID {
        columns := columns + [fields[i]];
      }
    }
    assert fields[..|fields|] == fields;
    if q.withProxy.Some? && ProxyID !in columns {
      columns := columns + [ProxyID];
    }
    if q.withParent.Some? && ParentAccountID !in columns {
      columns := columns + [ParentAccountID];
    }
  }

  predicate IdFirstOnce(columns: seq<Column>) {
    columns != [] && columns[0] == ID && forall i :: 0 < i < |columns| ==> columns[i] != ID
  }

  /** The position of a field in the struct. */
  function Place(c: Column): nat {
    match c
    case ID => 0
    case CreatedAt => 1
    case UpdatedAt => 2
    case DeletedAt => 3
    case Name => 4
    case Notes => 5
    case Platform => 6
    case Type => 7
    case Credentials => 8
    case Extra => 9
    case ProxyID => 10
    case ProxyFallbackOriginID => 11
    case Concurrency => 12
    case LoadFactor => 13
    case Priority => 14
    case RateMultiplier => 15
    case Status => 16
    case ErrorMessage => 17
    case LastUsedAt => 18
    case ExpiresAt => 19
    case AutoPauseOnExpired => 20
    case Schedulable => 21
    case RateLimitedAt => 22
    case RateLimitResetAt => 23
    case OverloadUntil => 24
    case TempUnschedulableUntil => 25
    case TempUnschedulableReason => 26
    case SessionWindowStart => 27
    case SessionWindowEnd => 28
    case SessionWindowStatus => 29
    case ParentAccountID => 30
    case QuotaDimension => 31
    case Other(_) => 32
  }

  lemma {:induction false} ListedAtPlace(c: Column)
    requires !c.Other?
    ensures Place(c) < |ALL_COLUMNS| && ALL_COLUMNS[Place(c)] == c
  {
  }

  lemma {:induction false} FirstPlaces(i: nat)
    requires i < 16
    ensures |ALL_COLUMNS| == 32 && Place(ALL_COLUMNS[i]) == i
  {
  }

  lemma {:induction false} LastPlaces(i: nat)
    requires 16 <= i < 32
    ensures |ALL_COLUMNS| == 32 && Place(ALL_COLUMNS[i]) == i
  {
  }

  lemma {:induction false} PlaceIsIndex(i: nat)
    requires i < 32
    ensures |ALL_COLUMNS| == 32 && Place(ALL_COLUMNS[i]) == i
  {
    if i < 16 {
      FirstPlaces(i);
    } else {
      LastPlaces(i);
    }
  }

  lemma {:induction false} IsListed(c: Column)
    ensures c in ALL_COLUMNS <==> !c.Other?
  {
    if c in ALL_COLUMNS {
      PlaceIsIndex(0);
      var i :| 0 <= i < |ALL_COLUMNS| && ALL_COLUMNS[i] == c;
      PlaceIsIndex(i);
    } else if !c.Other? {
      ListedAtPlace(c);
    }
  }

  /** The table's columns are the fields of the struct, each once. */
  lemma {:induction false} AllColumnsComplete(c: Column)
    ensures |ALL_COLUMNS| == 32 && NoRepeats(ALL_COLUMNS)
    ensures c in ALL_COLUMNS <==> !c.Other?
  {
    PlaceIsIndex(0);
    IsListed(c);
    forall i, j | 0 <= i < j < |ALL_COLUMNS|
      ensures ALL_COLUMNS[i] != ALL_COLUMNS[j]
    {
      PlaceIsIndex(i);
      PlaceIsIndex(j);
    }
  }

  lemma {:induction false} AllColumnsShape()
    ensures IdFirstOnce(ALL_COLUMNS) && ProxyID in ALL_COLUMNS && ParentAccountID in ALL_COLUMNS
  {
    assert ALL_COLUMNS[10] == ProxyID && ALL_COLUMNS[30] == ParentAccountID;
  }

  lemma {:induction false} AddOnceShape(columns: seq<Column>, c: Column, needed: bool)
    requires IdFirstOnce(columns) && c != ID
    ensures IdFirstOnce(AddOnceIf(columns, c, needed))
    ensures forall d :: d in AddOnceIf(columns, c, needed) <==> d in columns || (needed && d == c)
  {
  }

  /**
   For every field list: the id comes first and only once, nothing requested or needed is missing, nothing else is
   added.
   */
  lemma {:induction false} SelectedColumnsComplete(q: AccountQuery, fields: seq<Column>)
    ensures IdFirstOnce(SelectedColumns(q, fields))
    ensures forall c :: c in SelectedColumns(q, fields) <==>
              || c == ID || c in fields
              || (c == ProxyID && q.withProxy.Some?) || (c == ParentAccountID && q.withParent.Some?)
  {
    var base := [ID] + Filter(fields, NotId());
    BaseShape(fields);
    var withProxy := AddOnceIf(base, ProxyID, q.withProxy.Some?);
    AddOnceShape(base, ProxyID, q.withProxy.Some?);
    AddOnceShape(withProxy, ParentAccountID, q.withParent.Some?);
  }

  lemma {:induction false} BaseShape(fields: seq<Column>)
    ensures IdFirstOnce([ID] + Filter(fields, NotId()))
    ensures forall c :: c in [ID] + Filter(fields, NotId()) <==> c == ID || c in fields
  {
    var chosen := Filter(fields, NotId());
    FilterMembers(fields, NotId());
    forall i | 0 < i < |[ID] + chosen|
      ensures ([ID] + chosen)[i] != ID
    {
      assert ([ID] + chosen)[i] == chosen[i - 1] && chosen[i - 1] in chosen;
    }
    forall c | c in fields && c != ID
      ensures c in chosen
    {
      assert NotId()(c);
    }
  }

  lemma {:induction false} SpecColumnsComplete(q: AccountQuery, fields: seq<Column>)
    ensures IdFirstOnce(SpecColumns(q, fields))
    ensures forall c :: c in fields ==> c in SpecColumns(q, fields)
    ensures q.withProxy.Some? || fields == [] ==> ProxyID in SpecColumns(q, fields)
    ensures q.withParent.Some? || fields == [] ==> ParentAccountID in SpecColumns(q, fields)
  {
    if fields == [] {
      AllColumnsShape();
    } else {
      SelectedColumnsComplete(q, fields);
    }
  }

  // ---------------------------------------------------------------- scanning a projected row

  /** What remains of a row's keys when only `columns` are fetched: a missing column leaves the zero value. */
  function Project(columns: seq<Column>, row: AccountRow): AccountRow {
    AccountRow(if ID in columns then row.id else 0,
               if ProxyID in columns then row.proxyId else None,
               if ParentAccountID in columns then row.parentId else None)
  }

  /** A nullable key as the driver delivers it. */
  function KeyCell(key: Option<Id>): Cell {
    match key
    case None => NullInt(false, 0)
    case Some(k) => NullInt(true, k)
  }

  function KeyOf(row: AccountRow, c: Column): Option<Id> {
    if c == ID then Some(row.id) else if c == ProxyID then row.proxyId else row.parentId
  }

  predicate IsKey(c: Column) {
    c == ID || c == ProxyID || c == ParentAccountID
  }

  /** The driver filled the prepared holders from this row. */
  predicate Fills(columns: seq<Column>, cells: seq<Cell>, row: AccountRow) {
    && Shaped(columns, cells)
    && forall i :: 0 <= i < |columns| && IsKey(columns[i]) ==> cells[i] == KeyCell(KeyOf(row, columns[i]))
  }

  function ScannedKey(st: Struct, c: Column): Option<Id> {
    if c in st.fields && st.fields[c].IntValue? then Some(st.fields[c].n) else None
  }

  /** The keys of the struct that `assignValues` leaves behind. */
  function ScannedRow(st: Struct): AccountRow {
    var id := ScannedKey(st, ID);
    AccountRow(if id.Some? then id.value else 0, ScannedKey(st, ProxyID), ScannedKey(st, ParentAccountID))
  }

  lemma {:induction false} LastKey(columns: seq<Column>, cells: seq<Cell>, row: AccountRow, c: Column, n: nat)
    requires Fills(columns, cells, row) && IsKey(c) && n <= |columns|
    ensures LastValue(columns, cells, c, n) ==
            if c in columns[..n] && KeyOf(row, c).Some? then Some(IntValue(KeyOf(row, c).value)) else None
  {
    if n > 0 {
      LastKey(columns, cells, row, c, n - 1);
      assert columns[..n] == columns[..n - 1] + [columns[n - 1]];
    }
  }

  /** Scanning any column list, repeats included, yields the projection of the row. */
  lemma {:induction false} ScanYieldsProjection(um: Unmarshal, columns: seq<Column>, cells: seq<Cell>, row: AccountRow)
    requires Fills(columns, cells, row)
    ensures var p := AssignAll(um, columns, cells, Struct(map[], map[]));
            p.error.None? ==> ScannedRow(p.struct) == Project(columns, row)
  {
    assert columns[..|columns|] == columns;
    forall c | IsKey(c)
      ensures var p := AssignAll(um, columns, cells, Struct(map[], map[]));
              p.error.None? ==> ScannedKey(p.struct, c) == if c in columns then KeyOf(row, c) else None
    {
      LastKey(columns, cells, row, c, |columns|);
      ScanThenAssign(um, columns, cells, Struct(map[], map[]), c);
    }
  }

  /** Whatever is selected, the keys that the requested edges are loaded by survive the projection. */
  lemma {:induction false} ProjectionKeepsKeys(q: AccountQuery, fields: seq<Column>, row: AccountRow)
    ensures var scanned := Project(SpecColumns(q, fields), row);
            && scanned.id == row.id
            && (q.withProxy.Some? ==> scanned.proxyId == row.proxyId)
            && (q.withParent.Some? ==> scanned.parentId == row.parentId)
            && (ParentAccountID in fields || fields == [] ==> scanned.parentId == row.parentId)
  {
    SpecColumnsComplete(q, fields);
    assert SpecColumns(q, fields)[0] in SpecColumns(q, fields);
  }

  // ---------------------------------------------------------------- the other two tables that list edges load

  /** The data columns of the usage-log table. */
  const USAGE_DATA := [
    UsageData("user_id"), UsageData("api_key_id"), UsageData("request_id"), UsageData("model"),
    UsageData("requested_model"), UsageData("upstream_model"), UsageData("upstream_response_model"),
    UsageData("upstream_model_mismatch"), UsageData("channel_id"), UsageData("model_mapping_chain"),
    UsageData("billing_tier"), UsageData("billing_mode"), UsageData("group_id"), UsageData("subscription_id"),
    UsageData("input_tokens"), UsageData("output_tokens"), UsageData("cache_creation_tokens"),
    UsageData("cache_read_tokens"), UsageData("cache_creation_5m_tokens"), UsageData("cache_creation_1h_tokens"),
    UsageData("input_cost"), UsageData("output_cost"), UsageData("cache_creation_cost"),
    UsageData("cache_read_cost"), UsageData("total_cost"), UsageData("actual_cost"), UsageData("rate_multiplier"),
    UsageData("long_context_billing_applied"), UsageData("account_rate_multiplier"), UsageData("billing_type"),
    UsageData("stream"), UsageData("duration_ms"), UsageData("first_token_ms"), UsageData("user_agent"),
    UsageData("ip_address"), UsageData("image_count"), UsageData("image_size"), UsageData("image_input_size"),
    UsageData("image_output_size"), UsageData("image_size_source"), UsageData("image_size_breakdown"),
    UsageData("video_count"), UsageData("video_resolution"), UsageData("video_duration_seconds"),
    UsageData("cache_ttl_overridden"), UsageData("created_at")]

  const USAGE_COLUMNS := [UsageID, UsageAccountID] + USAGE_DATA

  const LINK_COLUMNS := [LinkAccountID, LinkGroupID, LinkPriority, LinkCreatedAt]

  function NotUsageId(): UsageColumn -> bool {
    c => c != UsageID
  }

  /** The column list of `UsageLogQuery.querySpec`. */
  function UsageSpec(fields: seq<UsageColumn>): seq<UsageColumn> {
    if fields == [] then USAGE_COLUMNS else [UsageID] + Filter(fields, NotUsageId())
  }

  /** The foreign keys are plain integers, zero when not fetched. */
  function ProjectUsage(columns: seq<UsageColumn>, row: UsageRow): UsageRow {
    UsageRow(if UsageID in columns then row.id else 0, if UsageAccountID in columns then row.accountId else 0)
  }

  /** The column list of `AccountGroupQuery.querySpec`: no id column, and the key of each requested edge is added. */
  function LinkSpec(q: LinkQuery, fields: seq<LinkColumn>): seq<LinkColumn> {
    if fields == [] then LINK_COLUMNS
    else AddOnceIf(AddOnceIf(fields, LinkAccountID, q.withAccount.Some?), LinkGroupID, q.withGroup.Some?)
  }

  method QueryLinkColumns(q: LinkQuery, fields: seq<LinkColumn>) returns (columns: seq<LinkColumn>)
    ensures columns == LinkSpec(q, fields)
  {
    if |fields| == 0 {
      return LINK_COLUMNS;
    }
    columns := [];
    for i := 0 to |fields|
      invariant columns == fields[..i]
    {
      columns := columns + [fields[i]];
    }
    if q.withAccount.Some? && LinkAccountID !in columns {
      columns := columns + [LinkAccountID];
    }
    if q.withGroup.Some? && LinkGroupID !in columns {
      columns := columns + [LinkGroupID];
    }
  }

  function ProjectLink(columns: seq<LinkColumn>, row: LinkRow): LinkRow {
    LinkRow(if LinkAccountID in columns then row.accountId else 0, if LinkGroupID in columns then row.groupId else 0)
  }

  /** Every column asked for was fetched; without a selection, all of them. */
  ghost predicate Fetched<T>(fields: seq<T>, columns: seq<T>, all: seq<T>) {
    if fields == [] then columns == all else forall c :: c in fields ==> c in columns
  }

  /** A longer selection of the same kind: no column is lost, and no selection stays none. */
  ghost predicate Extends<T>(more: seq<T>, fields: seq<T>) {
    (more == [] <==> fields == []) && forall c :: c in fields ==> c in more
  }

  /** What a completed selection fetches, the original selection asked for. */
  lemma {:induction false} FetchedLess<T>(more: seq<T>, fields: seq<T>, columns: seq<T>, all: seq<T>)
    requires Extends(more, fields) && Fetched(more, columns, all)
    ensures Fetched(fields, columns, all)
  {
  }

  lemma {:induction false} SpecFetches(q: AccountQuery, fields: seq<Column>, asked: seq<Column>)
    requires Extends(fields, asked)
    ensures Fetched(asked, SpecColumns(q, fields), ALL_COLUMNS)
  {
    SpecColumnsComplete(q, fields);
    FetchedLess(fields, asked, SpecColumns(q, fields), ALL_COLUMNS);
  }

  /** For every field list of the usage-log query: the id and every requested field, and nothing else. */
  lemma {:induction false} UsageSpecComplete(fields: seq<UsageColumn>)
    ensures UsageID in UsageSpec(fields)
    ensures fields != [] ==> forall c :: c in UsageSpec(fields) <==> c == UsageID || c in fields
    ensures fields == [] || UsageAccountID in fields ==> UsageAccountID in UsageSpec(fields)
  {
    if fields == [] {
      assert USAGE_COLUMNS[0] == UsageID && USAGE_COLUMNS[1] == UsageAccountID;
    } else {
      var chosen := Filter(fields, NotUsageId());
      FilterMembers(fields, NotUsageId());
      assert UsageSpec(fields)[0] == UsageID;
      forall c
        ensures c in UsageSpec(fields) <==> c == UsageID || c in fields
      {
        assert c in chosen <==> c in fields && NotUsageId()(c);
      }
    }
  }

  lemma {:induction false} UsageSpecFetches(fields: seq<UsageColumn>, asked: seq<UsageColumn>)
    requires Extends(fields, asked)
    ensures Fetched(asked, UsageSpec(fields), USAGE_COLUMNS)
  {
    UsageSpecComplete(fields);
    if asked != [] {
      FetchedLess(fields, asked, UsageSpec(fields), USAGE_COLUMNS);
    }
  }

  /** For every field list of the join query: the requested fields, the key of every requested edge, nothing else. */
  lemma {:induction false} LinkSpecComplete(q: LinkQuery, fields: seq<LinkColumn>)
    ensures fields != [] ==> forall c :: c in LinkSpec(q, fields) <==>
              || c in fields
              || (c == LinkAccountID && q.withAccount.Some?) || (c == LinkGroupID && q.withGroup.Some?)
    ensures fields == [] ==> LinkAccountID in LinkSpec(q, fields) && LinkGroupID in LinkSpec(q, fields)
  {
    if fields == [] {
      assert LINK_COLUMNS[0] == LinkAccountID && LINK_COLUMNS[1] == LinkGroupID;
    }
  }

  lemma {:induction false} LinkSpecFetches(q: LinkQuery, fields: seq<LinkColumn>, asked: seq<LinkColumn>)
    requires Extends(fields, asked)
    ensures Fetched(asked, LinkSpec(q, fields), LINK_COLUMNS)
  {
    LinkSpecComplete(q, fields);
    if asked != [] {
      FetchedLess(fields, asked, LinkSpec(q, fields), LINK_COLUMNS);
    }
  }
}
