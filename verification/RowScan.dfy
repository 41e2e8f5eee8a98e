/**
 Reading an account row: `scanValues` prepares one typed holder per selected column, the driver fills the holders,
 and `assignValues` copies them into the struct. The two dispatch on the column independently.
 */
module RowScan {
  import opened Prelude

  /** The columns of the accounts table, each also the name of a struct field, and columns added by modifiers. */
  datatype Column =
    | ID | CreatedAt | UpdatedAt | DeletedAt | Name | Notes | Platform | Type | Credentials | Extra
    | ProxyID | ProxyFallbackOriginID | Concurrency | LoadFactor | Priority | RateMultiplier | Status
    | ErrorMessage | LastUsedAt | ExpiresAt | AutoPauseOnExpired | Schedulable | RateLimitedAt
    | RateLimitResetAt | OverloadUntil | TempUnschedulableUntil | TempUnschedulableReason
    | SessionWindowStart | SessionWindowEnd | SessionWindowStatus | ParentAccountID | QuotaDimension
    | Other(name: string)

  /** `account.Columns`, in table order. */
  const ALL_COLUMNS := [
    ID, CreatedAt, UpdatedAt, DeletedAt, Name, Notes, Platform, Type, Credentials, Extra, ProxyID,
    ProxyFallbackOriginID, Concurrency, LoadFactor, Priority, RateMultiplier, Status, ErrorMessage,
    LastUsedAt, ExpiresAt, AutoPauseOnExpired, Schedulable, RateLimitedAt, RateLimitResetAt,
    OverloadUntil, TempUnschedulableUntil, TempUnschedulableReason, SessionWindowStart,
    SessionWindowEnd, SessionWindowStatus, ParentAccountID, QuotaDimension]

  // ---------------------------------------------------------------- holders

  datatype Kind = BytesKind | BoolKind | FloatKind | IntKind | StringKind | TimeKind | UnknownKind

  /** A holder after the driver filled it. An invalid holder stands for NULL and keeps its zero value. */
  datatype Cell =
    | Bytes(data: seq<int>)
    | NullBool(valid: bool, b: bool)
    | NullFloat(valid: bool, x: real)
    | NullInt(valid: bool, n: int)
    | NullString(valid: bool, s: string)
    | NullTime(valid: bool, at: int)
    | Unknown(raw: int)

  function KindOf(cell: Cell): Kind {
    match cell
    case Bytes(_) => BytesKind
    case NullBool(_, _) => BoolKind
    case NullFloat(_, _) => FloatKind
    case NullInt(_, _) => IntKind
    case NullString(_, _) => StringKind
    case NullTime(_, _) => TimeKind
    case Unknown(_) => UnknownKind
  }

  /** The dispatch of `scanValues`, grouped by holder type. */
  function ScanKind(c: Column): Kind {
    match c
    case Credentials | Extra => BytesKind
    case AutoPauseOnExpired | Schedulable => BoolKind
    case RateMultiplier => FloatKind
    case ID | ProxyID | ProxyFallbackOriginID | Concurrency | LoadFactor | Priority | ParentAccountID => IntKind
    case Name | Notes | Platform | Type | Status | ErrorMessage | TempUnschedulableReason
       | SessionWindowStatus | QuotaDimension => StringKind
    case CreatedAt | UpdatedAt | DeletedAt | LastUsedAt | ExpiresAt | RateLimitedAt | RateLimitResetAt
       | OverloadUntil | TempUnschedulableUntil | SessionWindowStart | SessionWindowEnd => TimeKind
    case Other(_) => UnknownKind
  }

  /** What one case of `assignValues` expects and writes. */
  datatype Target = Target(field: Column, kind: Kind)

  /**
   The dispatch of `assignValues`, one case a column; anything else goes to `selectValues`. It agrees with the
   holders of `scanValues` on every column, and every case writes its own field.
   */
  function AssignTarget(c: Column): (t: Option<Target>)
    ensures t == if ScanKind(c) == UnknownKind then None else Some(Target(c, ScanKind(c)))
    ensures t.None? <==> c.Other?
  {
    match c
    case ID => Some(Target(ID, IntKind))
    case CreatedAt => Some(Target(CreatedAt, TimeKind))
    case UpdatedAt => Some(Target(UpdatedAt, TimeKind))
    case DeletedAt => Some(Target(DeletedAt, TimeKind))
    case Name => Some(Target(Name, StringKind))
    case Notes => Some(Target(Notes, StringKind))
    case Platform => Some(Target(Platform, StringKind))
    case Type => Some(Target(Type, StringKind))
    case Credentials => Some(Target(Credentials, BytesKind))
    case Extra => Some(Target(Extra, BytesKind))
    case ProxyID => Some(Target(ProxyID, IntKind))
    case ProxyFallbackOriginID => Some(Target(ProxyFallbackOriginID, IntKind))
    case Concurrency => Some(Target(Concurrency, IntKind))
    case LoadFactor => Some(Target(LoadFactor, IntKind))
    case Priority => Some(Target(Priority, IntKind))
    case RateMultiplier => Some(Target(RateMultiplier, FloatKind))
    case Status => Some(Target(Status, StringKind))
    case ErrorMessage => Some(Target(ErrorMessage, StringKind))
    case LastUsedAt => Some(Target(LastUsedAt, TimeKind))
    case ExpiresAt => Some(Target(ExpiresAt, TimeKind))
    case AutoPauseOnExpired => Some(Target(AutoPauseOnExpired, BoolKind))
    case Schedulable => Some(Target(Schedulable, BoolKind))
    case RateLimitedAt => Some(Target(RateLimitedAt, TimeKind))
    case RateLimitResetAt => Some(Target(RateLimitResetAt, TimeKind))
    case OverloadUntil => Some(Target(OverloadUntil, TimeKind))
    case TempUnschedulableUntil => Some(Target(TempUnschedulableUntil, TimeKind))
    case TempUnschedulableReason => Some(Target(TempUnschedulableReason, StringKind))
    case SessionWindowStart => Some(Target(SessionWindowStart, TimeKind))
    case SessionWindowEnd => Some(Target(SessionWindowEnd, TimeKind))
    case SessionWindowStatus => Some(Target(SessionWindowStatus, StringKind))
    case ParentAccountID => Some(Target(ParentAccountID, IntKind))
    case QuotaDimension => Some(Target(QuotaDimension, StringKind))
    case Other(_) => None
  }

  method ScanValues(columns: seq<Column>) returns (kinds: seq<Kind>)
    ensures |kinds| == |columns|
    ensures forall i :: 0 <= i < |columns| ==> kinds[i] == ScanKind(columns[i])
  {
    kinds := [];
    for i := 0 to |columns|
      invariant |kinds| == i
      invariant forall j :: 0 <= j < i ==> kinds[j] == ScanKind(columns[j])
    {
      kinds := kinds + [ScanKind(columns[i])];
    }
  }

  // ---------------------------------------------------------------- assignment

  datatype FieldValue =
    | BoolValue(b: bool)
    | FloatValue(x: real)
    | IntValue(n: int)
    | StringValue(s: string)
    | TimeValue(at: int)
    | JsonValue(tree: int)

  /** `json.Unmarshal` into the current field value, which it may merge with; `None` is its error. */
  type Unmarshal = (Option<FieldValue>, seq<int>) -> Option<FieldValue>

  datatype ScanError = Mismatch | UnexpectedType(field: Column) | BadJson(field: Column)

  /** The struct: the fields assigned so far (a missing one keeps its zero value), and the extra selected values. */
  datatype Struct = Struct(fields: map<Column, FieldValue>, selected: map<Column, Cell>)

  /** The struct after some columns, and the error that stopped the loop, if any. */
  datatype Progress = Progress(struct: Struct, error: Option<ScanError>)

  /** The value a holder contributes: nothing when NULL, except that the id is copied without asking. */
  function Contributes(field: Column, cell: Cell): Option<FieldValue> {
    match cell
    case NullBool(valid, b) => if valid then Some(BoolValue(b)) else None
    case NullFloat(valid, x) => if valid then Some(FloatValue(x)) else None
    case NullInt(valid, n) => if valid || field == ID then Some(IntValue(n)) else None
    case NullString(valid, s) => if valid then Some(StringValue(s)) else None
    case NullTime(valid, at) => if valid then Some(TimeValue(at)) else None
    case Bytes(_) => None
    case Unknown(_) => None
  }

  function Decode(um: Unmarshal, fields: map<Column, FieldValue>, field: Column, data: seq<int>): Option<FieldValue> {
    um(if field in fields then Some(fields[field]) else None, data)
  }

  function AssignOne(um: Unmarshal, c: Column, cell: Cell, st: Struct): Progress {
    Write(um, AssignTarget(c), c, cell, st)
  }

  function Write(um: Unmarshal, target: Option<Target>, c: Column, cell: Cell, st: Struct): Progress {
    match target
    case None => Progress(st.(selected := st.selected[c := cell]), None)
    case Some(Target(field, kind)) =>
      if KindOf(cell) != kind then Progress(st, Some(UnexpectedType(field)))
      else if cell.Bytes? then
        if cell.data == [] then Progress(st, None)
        else
          var tree := Decode(um, st.fields, field, cell.data);
          if tree.None? then Progress(st, Some(BadJson(field)))
          else Progress(st.(fields := st.fields[field := tree.value]), None)
      else
        var v := Contributes(field, cell);
        if v.None? then Progress(st, None) else Progress(st.(fields := st.fields[field := v.value]), None)
  }

  /** The first `n` rounds of the loop of `assignValues`, which an error stops. */
  function AssignFirst(um: Unmarshal, columns: seq<Column>, cells: seq<Cell>, st: Struct, n: nat): Progress
    requires n <= |columns| <= |cells|
  {
    if n == 0 then Progress(st, None)
    else
      var before := AssignFirst(um, columns, cells, st, n - 1);
      if before.error.Some? then before else AssignOne(um, columns[n - 1], cells[n - 1], before.struct)
  }

  function AssignAll(um: Unmarshal, columns: seq<Column>, cells: seq<Cell>, st: Struct): Progress
    requires |columns| <= |cells|
  {
    AssignFirst(um, columns, cells, st, |columns|)
  }

  lemma {:induction false} ErrorStops(um: Unmarshal, columns: seq<Column>, cells: seq<Cell>, st: Struct, n: nat, m: nat)
    requires n <= m <= |columns| <= |cells|
    requires AssignFirst(um, columns, cells, st, n).error.Some?
    ensures AssignFirst(um, columns, cells, st, m) == AssignFirst(um, columns, cells, st, n)
    decreases m
  {
    if n < m {
      ErrorStops(um, columns, cells, st, n, m - 1);
    }
  }

  /** The column part of the Account struct; its edges are in `EagerLoad`. */
  class AccountFields {
    var fields: map<Column, FieldValue>
    var selected: map<Column, Cell>

    ghost function State(): Struct
      reads this
    {
      Struct(fields, selected)
    }

    constructor ()
      ensures State() == Struct(map[], map[])
    {
      fields, selected := map[], map[];
    }

    method AssignValues(um: Unmarshal, columns: seq<Column>, cells: seq<Cell>) returns (error: Option<ScanError>)
      modifies this
      ensures |cells| < |columns| ==> error == Some(Mismatch) && State() == old(State())
      ensures |columns| <= |cells| ==> Progress(State(), error) == AssignAll(um, columns, cells, old(State()))
    {
      if |cells| < |columns| {
        return Some(Mismatch);
      }
      error := None;
      for i := 0 to |columns|
        invariant error.None?
        invariant AssignFirst(um, columns, cells, old(State()), i) == Progress(State(), None)
      {
        var c, cell := columns[i], cells[i];
        var target := AssignTarget(c);
        ghost var before := State();
        if target.None? {
          selected := selected[c := cell];
          continue;
        }
        var field := target.value.field;
        if KindOf(cell) != target.value.kind {
          error := Some(UnexpectedType(field));
        } else if cell.Bytes? {
          if cell.data != [] {
            var tree := Decode(um, fields, field, cell.data);
            if tree.Some? {
              fields := fields[field := tree.value];
            } else {
              error := Some(BadJson(field));
            }
          }
        } else {
          var v := Contributes(field, cell);
          if v.Some? {
            fields := fields[field := v.value];
          }
        }
        assert Progress(State(), error) == Write(um, target, c, cell, before);
        if error.Some? {
          ErrorStops(um, columns, cells, old(State()), i + 1, |columns|);
          return;
        }
      }
    }
  }

  // ---------------------------------------------------------------- what scanning promises

  /** Holders as prepared by `scanValues`, filled by the driver. */
  predicate Shaped(columns: seq<Column>, cells: seq<Cell>) {
    |cells| == |columns| && forall i :: 0 <= i < |columns| ==> KindOf(cells[i]) == ScanKind(columns[i])
  }

  /** The last contribution to a field among the first `n` columns. */
  function LastValue(columns: seq<Column>, cells: seq<Cell>, field: Column, n: nat): Option<FieldValue>
    requires n <= |columns| == |cells|
  {
    if n == 0 then None
    else if columns[n - 1] == field && Contributes(field, cells[n - 1]).Some? then Contributes(field, cells[n - 1])
    else LastValue(columns, cells, field, n - 1)
  }

  predicate IsJson(field: Column) {
    field == Credentials || field == Extra
  }

  /** The value of a field after assignment, given its last contribution. */
  predicate EndsAt(before: Struct, after: Struct, field: Column, last: Option<FieldValue>) {
    match last
    case Some(v) => field in after.fields && after.fields[field] == v
    case None => (field in after.fields <==> field in before.fields)
                 && (field in before.fields ==> after.fields[field] == before.fields[field])
  }

  lemma {:induction false} OneColumn(um: Unmarshal, c: Column, kind: Kind, cell: Cell, st: Struct, field: Column)
    requires KindOf(cell) == kind && (kind == UnknownKind <==> c.Other?) && (kind == BytesKind <==> IsJson(c))
    ensures var p := Write(um, if kind == UnknownKind then None else Some(Target(c, kind)), c, cell, st);
            && (p.error.Some? ==> p.error.value.BadJson?)
            && (!IsJson(field) && !field.Other? ==>
                  EndsAt(st, p.struct, field, if c == field then Contributes(field, cell) else None))
  {
  }

  lemma {:induction false} ScanThenAssignFirst(um: Unmarshal, columns: seq<Column>, cells: seq<Cell>, st: Struct,
                                               field: Column, n: nat)
    requires Shaped(columns, cells) && n <= |columns|
    requires !IsJson(field) && !field.Other?
    ensures var p := AssignFirst(um, columns, cells, st, n);
            && (p.error.Some? ==> p.error.value.BadJson?)
            && (p.error.None? ==> EndsAt(st, p.struct, field, LastValue(columns, cells, field, n)))
  {
    if n > 0 {
      ScanThenAssignFirst(um, columns, cells, st, field, n - 1);
      var before := AssignFirst(um, columns, cells, st, n - 1);
      OneColumn(um, columns[n - 1], ScanKind(columns[n - 1]), cells[n - 1], before.struct, field);
    }
  }

  /**
   For every column list, with repeats and unknown names, filled holders never cause a type error; only malformed
   JSON stops the loop. When nothing does, each plain field ends at its last non-NULL occurrence (the id at its
   last occurrence of any kind) or keeps its value.
   */
  lemma {:induction false} ScanThenAssign(um: Unmarshal, columns: seq<Column>, cells: seq<Cell>, st: Struct,
                                          field: Column)
    requires Shaped(columns, cells)
    requires !IsJson(field) && !field.Other?
    ensures var p := AssignAll(um, columns, cells, st);
            && (p.error.Some? ==> p.error.value.BadJson?)
            && (p.error.None? ==> EndsAt(st, p.struct, field, LastValue(columns, cells, field, |columns|)))
  {
    ScanThenAssignFirst(um, columns, cells, st, field, |columns|);
  }

  /** The id is overwritten by a NULL occurrence: its last occurrence decides, whatever it holds. */
  lemma {:induction false} LastIdDecides(columns: seq<Column>, cells: seq<Cell>, n: nat, i: nat)
    requires Shaped(columns, cells) && i < n <= |columns|
    requires columns[i] == ID && forall j :: i < j < n ==> columns[j] != ID
    ensures LastValue(columns, cells, ID, n) == Some(IntValue(cells[i].n))
    decreases n
  {
    assert KindOf(cells[i]) == IntKind;
    if i < n - 1 {
      LastIdDecides(columns, cells, n - 1, i);
    }
  }

  // ---------------------------------------------------------------- by the index of an occurrence

  /** The holder suits the Go type of the struct field that the column is named after. */
  predicate Fits(c: Column, cell: Cell) {
    match c
    case ID | ProxyID | ProxyFallbackOriginID | ParentAccountID => cell.NullInt?
    case Concurrency | LoadFactor | Priority => cell.NullInt?
    case CreatedAt | UpdatedAt | DeletedAt | LastUsedAt | ExpiresAt => cell.NullTime?
    case RateLimitedAt | RateLimitResetAt | OverloadUntil | TempUnschedulableUntil => cell.NullTime?
    case SessionWindowStart | SessionWindowEnd => cell.NullTime?
    case Name | Notes | Platform | Type | Status | ErrorMessage | TempUnschedulableReason => cell.NullString?
    case SessionWindowStatus | QuotaDimension => cell.NullString?
    case RateMultiplier => cell.NullFloat?
    case AutoPauseOnExpired | Schedulable => cell.NullBool?
    case Credentials | Extra => cell.Bytes?
    case Other(_) => cell.Unknown?
  }

  predicate AllFit(columns: seq<Column>, cells: seq<Cell>) {
    |cells| == |columns| && forall i :: 0 <= i < |columns| ==> Fits(columns[i], cells[i])
  }

  /** The prepared holders are exactly those that suit the struct. */
  lemma {:induction false} HoldersFit(columns: seq<Column>, cells: seq<Cell>)
    ensures Shaped(columns, cells) <==> AllFit(columns, cells)
  {
    forall c: Column, cell: Cell
      ensures KindOf(cell) == ScanKind(c) <==> Fits(c, cell)
    {
      match c
      case Other(_) =>
      case _ =>
    }
  }

  /** A holder that leaves its column's field as it is: NULL, or no bytes. */
  predicate AddsNothing(c: Column, cell: Cell) {
    match cell
    case Bytes(data) => data == []
    case Unknown(_) => false
    case _ => !cell.valid && c != ID
  }

  ghost predicate OnlyNothing(columns: seq<Column>, cells: seq<Cell>, c: Column, i: nat, n: nat)
    requires n <= |columns| == |cells|
  {
    forall j :: i <= j < n && columns[j] == c ==> AddsNothing(c, cells[j])
  }

  /** A column holds the same in both structs. */
  predicate SameAt(before: Struct, after: Struct, c: Column) {
    && (c in after.fields <==> c in before.fields)
    && (c in after.fields ==> after.fields[c] == before.fields[c])
    && (c in after.selected <==> c in before.selected)
    && (c in after.selected ==> after.selected[c] == before.selected[c])
  }

  /** One round, read off the holder itself. */
  lemma {:induction false} OneRound(um: Unmarshal, c: Column, cell: Cell, st: Struct)
    requires Fits(c, cell)
    ensures var p := AssignOne(um, c, cell, st);
      && (forall d | d != c :: SameAt(st, p.struct, d))
      && (AddsNothing(c, cell) ==> p == Progress(st, None))
      && (cell.NullBool? && cell.valid ==> p.error.None? && p.struct.fields == st.fields[c := BoolValue(cell.b)])
      && (cell.NullFloat? && cell.valid ==> p.error.None? && p.struct.fields == st.fields[c := FloatValue(cell.x)])
      && (cell.NullInt? && (cell.valid || c == ID) ==>
            p.error.None? && p.struct.fields == st.fields[c := IntValue(cell.n)])
      && (cell.NullString? && cell.valid ==> p.error.None? && p.struct.fields == st.fields[c := StringValue(cell.s)])
      && (cell.NullTime? && cell.valid ==> p.error.None? && p.struct.fields == st.fields[c := TimeValue(cell.at)])
      && (cell.Unknown? ==> p.error.None? && p.struct.selected == st.selected[c := cell])
      && (cell.Bytes? && cell.data != [] ==>
            var tree := um(if c in st.fields then Some(st.fields[c]) else None, cell.data);
            if tree.None? then p == Progress(st, Some(BadJson(c)))
            else p.error.None? && p.struct.fields == st.fields[c := tree.value])
      && (p.error.Some? ==> cell.Bytes? && cell.data != [])
  {
    HoldersFit([c], [cell]);
    assert AllFit([c], [cell]);
    assert KindOf([cell][0]) == ScanKind([c][0]);
  }

  lemma {:induction false} NoErrorBefore(um: Unmarshal, columns: seq<Column>, cells: seq<Cell>, st: Struct, i: nat,
                                         n: nat)
    requires i <= n <= |columns| <= |cells| && AssignFirst(um, columns, cells, st, n).error.None?
    ensures AssignFirst(um, columns, cells, st, i).error.None?
  {
    if AssignFirst(um, columns, cells, st, i).error.Some? {
      ErrorStops(um, columns, cells, st, i, n);
    }
  }

  lemma {:induction false} Stays(um: Unmarshal, columns: seq<Column>, cells: seq<Cell>, st: Struct, c: Column, i: nat,
                                 n: nat)
    requires AllFit(columns, cells) && i <= n <= |columns| && OnlyNothing(columns, cells, c, i, n)
    requires AssignFirst(um, columns, cells, st, n).error.None?
    ensures AssignFirst(um, columns, cells, st, i).error.None?
    ensures SameAt(AssignFirst(um, columns, cells, st, i).struct, AssignFirst(um, columns, cells, st, n).struct, c)
    decreases n
  {
    if i < n {
      NoErrorBefore(um, columns, cells, st, n - 1, n);
      Stays(um, columns, cells, st, c, i, n - 1);
      OneRound(um, columns[n - 1], cells[n - 1], AssignFirst(um, columns, cells, st, n - 1).struct);
    }
  }

  /**
   By index: a column's last occurrence that is not NULL (for the id, its last occurrence) decides, and the struct then
   holds the value of that very holder; a column added by a modifier holds its last holder.
   */
  lemma {:induction false} LastValidWins(um: Unmarshal, columns: seq<Column>, cells: seq<Cell>, st: Struct, i: nat)
    requires AllFit(columns, cells) && AssignAll(um, columns, cells, st).error.None?
    requires i < |columns| && OnlyNothing(columns, cells, columns[i], i + 1, |columns|)
    ensures var c, cell, after := columns[i], cells[i], AssignAll(um, columns, cells, st).struct;
      && (cell.NullBool? && cell.valid ==> c in after.fields && after.fields[c] == BoolValue(cell.b))
      && (cell.NullFloat? && cell.valid ==> c in after.fields && after.fields[c] == FloatValue(cell.x))
      && (cell.NullInt? && (cell.valid || c == ID) ==> c in after.fields && after.fields[c] == IntValue(cell.n))
      && (cell.NullString? && cell.valid ==> c in after.fields && after.fields[c] == StringValue(cell.s))
      && (cell.NullTime? && cell.valid ==> c in after.fields && after.fields[c] == TimeValue(cell.at))
      && (cell.Unknown? ==> c in after.selected && after.selected[c] == cell)
  {
    Stays(um, columns, cells, st, columns[i], i + 1, |columns|);
    NoErrorBefore(um, columns, cells, st, i, |columns|);
    OneRound(um, columns[i], cells[i], AssignFirst(um, columns, cells, st, i).struct);
  }

  /** A column that occurs with NULL or without bytes only, or not at all, keeps what it had. */
  lemma {:induction false} NullsKeep(um: Unmarshal, columns: seq<Column>, cells: seq<Cell>, st: Struct, c: Column)
    requires AllFit(columns, cells) && AssignAll(um, columns, cells, st).error.None?
    requires OnlyNothing(columns, cells, c, 0, |columns|)
    ensures SameAt(st, AssignAll(um, columns, cells, st).struct, c)
  {
    Stays(um, columns, cells, st, c, 0, |columns|);
  }

  /**
   A JSON column holds what its last bytes decode to, merged into what the columns before left there: the value that the
   struct came with when these are its only bytes.
   */
  lemma {:induction false} LastJsonDecodes(um: Unmarshal, columns: seq<Column>, cells: seq<Cell>, st: Struct, i: nat)
    requires AllFit(columns, cells) && AssignAll(um, columns, cells, st).error.None?
    requires i < |columns| && OnlyNothing(columns, cells, columns[i], i + 1, |columns|)
    requires cells[i].Bytes? && cells[i].data != []
    ensures var c, before, after :=
              columns[i], AssignFirst(um, columns, cells, st, i).struct, AssignAll(um, columns, cells, st).struct;
      && var tree := um(if c in before.fields then Some(before.fields[c]) else None, cells[i].data);
      && tree.Some? && c in after.fields && after.fields[c] == tree.value
      && (OnlyNothing(columns, cells, c, 0, i) ==> SameAt(st, before, c))
  {
    Stays(um, columns, cells, st, columns[i], i + 1, |columns|);
    NoErrorBefore(um, columns, cells, st, i, |columns|);
    NoErrorBefore(um, columns, cells, st, i + 1, |columns|);
    OneRound(um, columns[i], cells[i], AssignFirst(um, columns, cells, st, i).struct);
    if OnlyNothing(columns, cells, columns[i], 0, i) {
      Stays(um, columns, cells, st, columns[i], 0, i);
    }
  }

  /** Column `i` holds bytes that do not decode over what the columns before left there. */
  predicate Undecodable(um: Unmarshal, columns: seq<Column>, cells: seq<Cell>, st: Struct, i: nat)
    requires i < |columns| <= |cells|
  {
    var c, before := columns[i], AssignFirst(um, columns, cells, st, i);
    && before.error.None? && cells[i].Bytes? && cells[i].data != []
    && um(if c in before.struct.fields then Some(before.struct.fields[c]) else None, cells[i].data).None?
  }

  /** Only bytes that do not decode stop the loop, at that column, with all that was assigned before. */
  lemma {:induction false} StopsAt(um: Unmarshal, columns: seq<Column>, cells: seq<Cell>, st: Struct, i: nat)
    requires AllFit(columns, cells) && i < |columns| && Undecodable(um, columns, cells, st, i)
    ensures AssignAll(um, columns, cells, st) ==
            Progress(AssignFirst(um, columns, cells, st, i).struct, Some(BadJson(columns[i])))
  {
    OneRound(um, columns[i], cells[i], AssignFirst(um, columns, cells, st, i).struct);
    ErrorStops(um, columns, cells, st, i + 1, |columns|);
  }

  lemma {:induction false} StopsOnlyAtJson(um: Unmarshal, columns: seq<Column>, cells: seq<Cell>, st: Struct, n: nat)
    requires AllFit(columns, cells) && n <= |columns|
    ensures AssignFirst(um, columns, cells, st, n).error.Some? <==>
            exists i :: 0 <= i < n && Undecodable(um, columns, cells, st, i)
  {
    if n > 0 {
      StopsOnlyAtJson(um, columns, cells, st, n - 1);
      var before := AssignFirst(um, columns, cells, st, n - 1);
      OneRound(um, columns[n - 1], cells[n - 1], before.struct);
      if before.error.None? {
        assert AssignFirst(um, columns, cells, st, n).error.Some? <==> Undecodable(um, columns, cells, st, n - 1);
      }
    }
  }
}
