/**
 The transition table of the state-machine library and its compilation: rows are grouped
 into an event -> state -> rows index by `unique_mappings`, looked up by
 `get_event_mapping` and `get_state_mapping`. Guards and actions are names here; the
 engine gives them a meaning.
 */
module SmlTable {
  import opened TypeLists

  /** `Internal` is the pseudo target of internal transitions; it is listed among the states. */
  datatype State = Named(n: nat) | Terminate | Internal | Sub(k: nat)

  /** `Any` is the wildcard `_`; `OnEntry(Any)` is the untargeted entry handler's event. */
  datatype Event =
    | Plain(n: nat)
    | Anonymous
    | Initial
    | Any
    | OnEntry(of: Event)
    | OnExit(of: Event)
    | Unexpected(of: Event)

  datatype Guard = Always | Check(id: nat)

  datatype Action = NoAction | Do(id: nat)

  datatype Row = Row(src: State, dst: State, event: Event, guard: Guard, action: Action,
                     initial: bool, history: bool)

  datatype Mapping<K, V> = Mapping(key: K, vals: seq<V>)

  type StateMapping = Mapping<State, Row>

  type EventMapping = Mapping<Event, StateMapping>

  // ----- unique_mappings: a left fold that extends a seen key or prepends a new one -----

  predicate HasKey<K(==), V>(ms: seq<Mapping<K, V>>, k: K) {
    exists i :: 0 <= i < |ms| && ms[i].key == k
  }

  function Extend<K(==), V>(t: Mapping<K, V>, rs: seq<Mapping<K, V>>,
                            combine: (seq<V>, seq<V>) -> seq<V>): seq<Mapping<K, V>> {
    if rs == [] then []
    else
      var r := if rs[0].key == t.key then Mapping(t.key, combine(rs[0].vals, t.vals)) else rs[0];
      [r] + Extend(t, rs[1..], combine)
  }

  function MergeFrom<K(==), V>(rs: seq<Mapping<K, V>>, ts: seq<Mapping<K, V>>,
                               combine: (seq<V>, seq<V>) -> seq<V>): seq<Mapping<K, V>>
    decreases |ts|
  {
    if ts == [] then rs
    else if HasKey(rs, ts[0].key) then MergeFrom(Extend(ts[0], rs, combine), ts[1..], combine)
    else MergeFrom([ts[0]] + rs, ts[1..], combine)
  }

  function UniqueMappings<K(==), V>(ts: seq<Mapping<K, V>>,
                                    combine: (seq<V>, seq<V>) -> seq<V>): seq<Mapping<K, V>> {
    if |ts| == 1 then ts else MergeFrom([], ts, combine)
  }

  function JoinRows(a: seq<Row>, b: seq<Row>): seq<Row> {
    a + b
  }

  function JoinStates(a: seq<StateMapping>, b: seq<StateMapping>): seq<StateMapping> {
    UniqueMappings(a + b, JoinRows)
  }

  function RowMappings(table: seq<Row>): seq<EventMapping> {
    if table == [] then []
    else [Mapping(table[0].event, [Mapping(table[0].src, [table[0]])])] + RowMappings(table[1..])
  }

  function Compile(table: seq<Row>): seq<EventMapping> {
    UniqueMappings(RowMappings(table), JoinStates)
  }

  // ----- lookup -----

  /** The base-class overload picks the mapping with this key; there is at most one. */
  function Vals<K(==), V>(ms: seq<Mapping<K, V>>, k: K): seq<V> {
    if ms == [] then [] else if ms[0].key == k then ms[0].vals else Vals(ms[1..], k)
  }

  /** Events whose lookup never consults the wildcard rows. */
  predicate OwnRowsOnly(e: Event) {
    e.OnEntry? || e.OnExit? || e.Unexpected?
  }

  datatype Found = Unmapped | Found(rows: seq<Row>)

  /** The state mappings of an event. An event without rows of its own does not reach the wildcard rows. */
  function GetEventMapping(ms: seq<EventMapping>, e: Event): seq<StateMapping> {
    if !HasKey(ms, e) then []
    else if OwnRowsOnly(e) || !HasKey(ms, Any) then Vals(ms, e)
    else UniqueMappings(Vals(ms, e) + Vals(ms, Any), JoinRows)
  }

  function GetStateMapping(ms: seq<StateMapping>, s: State): Found {
    if HasKey(ms, s) then Found(Vals(ms, s)) else Unmapped
  }

  function Lookup(ms: seq<EventMapping>, e: Event, s: State): Found {
    GetStateMapping(GetEventMapping(ms, e), s)
  }

  // ----- the declared table, read directly -----

  function Select(table: seq<Row>, e: Event, s: State): seq<Row> {
    if table == [] then []
    else (if table[0].event == e && table[0].src == s then [table[0]] else []) + Select(table[1..], e, s)
  }

  predicate HasEvent(table: seq<Row>, e: Event) {
    exists i :: 0 <= i < |table| && table[i].event == e
  }

  /** The rows of `e` at `s` in declaration order, then, if `e` has a row anywhere, the wildcard rows at `s`. */
  function DeclaredRows(table: seq<Row>, e: Event, s: State): seq<Row> {
    if !HasEvent(table, e) then []
    else if e.OnEntry? || e.OnExit? || e.Unexpected? then Select(table, e, s)
    else Select(table, e, s) + Select(table, Any, s)
  }

  lemma Assoc<T>(a: seq<T>, b: seq<T>, c: seq<T>)
    ensures (a + b) + c == a + (b + c)
  {
  }

  lemma {:induction false} SelectIsFilter(table: seq<Row>, e: Event, s: State, row: Row)
    ensures row in Select(table, e, s) <==> row in table && row.event == e && row.src == s
  {
    if table != [] {
      SelectIsFilter(table[1..], e, s, row);
      assert table == [table[0]] + table[1..];
    }
  }

  lemma {:induction false} SelectConcat(a: seq<Row>, b: seq<Row>, e: Event, s: State)
    ensures Select(a + b, e, s) == Select(a, e, s) + Select(b, e, s)
  {
    if a == [] {
      assert a + b == b;
    } else {
      var first := if a[0].event == e && a[0].src == s then [a[0]] else [];
      SelectConcat(a[1..], b, e, s);
      assert (a + b)[0] == a[0] && (a + b)[1..] == a[1..] + b;
      assert Select(a + b, e, s) == first + Select(a[1..] + b, e, s);
      Assoc(first, Select(a[1..], e, s), Select(b, e, s));
    }
  }

  // ----- correctness of the compilation -----

  ghost predicate UniqueKeys<K(!new), V(!new)>(ms: seq<Mapping<K, V>>) {
    forall i, j :: 0 <= i < j < |ms| ==> ms[i].key != ms[j].key
  }

  /** All values filed under `k`, in list order, over every mapping with that key. */
  function AllVals<K(==), V>(ms: seq<Mapping<K, V>>, k: K): seq<V> {
    if ms == [] then [] else (if ms[0].key == k then ms[0].vals else []) + AllVals(ms[1..], k)
  }

  lemma {:induction false} AllValsConcat<K, V>(a: seq<Mapping<K, V>>, b: seq<Mapping<K, V>>, k: K)
    ensures AllVals(a + b, k) == AllVals(a, k) + AllVals(b, k)
  {
    if a == [] {
      assert a + b == b;
    } else {
      assert (a + b)[1..] == a[1..] + b;
      AllValsConcat(a[1..], b, k);
    }
  }

  lemma {:induction false} ValsOfKey<K(!new), V(!new)>(ms: seq<Mapping<K, V>>, k: K)
    ensures !HasKey(ms, k) ==> Vals(ms, k) == AllVals(ms, k) == []
    ensures HasKey(ms, k) ==> exists i :: 0 <= i < |ms| && ms[i].key == k && Vals(ms, k) == ms[i].vals
    ensures UniqueKeys(ms) ==> AllVals(ms, k) == Vals(ms, k)
  {
    if ms != [] {
      ValsOfKey(ms[1..], k);
      assert ms == [ms[0]] + ms[1..];
      if HasKey(ms, k) && ms[0].key != k {
        assert HasKey(ms[1..], k);
      }
      if UniqueKeys(ms) && ms[0].key == k {
        assert !HasKey(ms[1..], k);
      }
    }
  }

  lemma {:induction false} ExtendSpec<K(!new), V(!new)>(t: Mapping<K, V>, rs: seq<Mapping<K, V>>,
                                                        combine: (seq<V>, seq<V>) -> seq<V>)
    ensures |Extend(t, rs, combine)| == |rs|
    ensures forall i :: 0 <= i < |rs| ==>
              Extend(t, rs, combine)[i]
              == if rs[i].key == t.key then Mapping(t.key, combine(rs[i].vals, t.vals)) else rs[i]
  {
    if rs != [] {
      ExtendSpec(t, rs[1..], combine);
    }
  }

  lemma {:induction false} ExtendVals<K(!new), V(!new)>(t: Mapping<K, V>, rs: seq<Mapping<K, V>>,
                                                        combine: (seq<V>, seq<V>) -> seq<V>, k: K)
    ensures HasKey(Extend(t, rs, combine), k) <==> HasKey(rs, k)
    ensures UniqueKeys(rs) ==> UniqueKeys(Extend(t, rs, combine))
    ensures HasKey(rs, k) ==>
              Vals(Extend(t, rs, combine), k) == if k == t.key then combine(Vals(rs, k), t.vals) else Vals(rs, k)
  {
    ExtendSpec(t, rs, combine);
    if HasKey(rs, k) {
      var i :| 0 <= i < |rs| && rs[i].key == k;
      assert Extend(t, rs, combine)[i].key == k;
      ExtendValsHit(t, rs, combine, k);
    }
  }

  lemma {:induction false} ExtendValsHit<K(!new), V(!new)>(t: Mapping<K, V>, rs: seq<Mapping<K, V>>,
                                                           combine: (seq<V>, seq<V>) -> seq<V>, k: K)
    requires HasKey(rs, k)
    ensures Vals(Extend(t, rs, combine), k) == if k == t.key then combine(Vals(rs, k), t.vals) else Vals(rs, k)
  {
    if rs[0].key != k {
      assert rs == [rs[0]] + rs[1..];
      assert HasKey(rs[1..], k);
      ExtendValsHit(t, rs[1..], combine, k);
    }
  }

  lemma HasKeyCons<K, V>(t: Mapping<K, V>, rs: seq<Mapping<K, V>>, k: K)
    ensures HasKey([t] + rs, k) <==> t.key == k || HasKey(rs, k)
    ensures Vals([t] + rs, k) == if t.key == k then t.vals else Vals(rs, k)
  {
    assert ([t] + rs)[0] == t && ([t] + rs)[1..] == rs;
    if HasKey(rs, k) {
      var i :| 0 <= i < |rs| && rs[i].key == k;
      assert ([t] + rs)[i + 1].key == k;
    }
  }

  lemma MergeFromStep<K, V>(rs: seq<Mapping<K, V>>, ts: seq<Mapping<K, V>>, combine: (seq<V>, seq<V>) -> seq<V>)
    requires ts != []
    ensures MergeFrom(rs, ts, combine)
         == MergeFrom(if HasKey(rs, ts[0].key) then Extend(ts[0], rs, combine) else [ts[0]] + rs, ts[1..], combine)
  {
  }

  lemma FileRows(rs: seq<StateMapping>, t: StateMapping, s: State) returns (rs': seq<StateMapping>)
    requires UniqueKeys(rs)
    ensures rs' == if HasKey(rs, t.key) then Extend(t, rs, JoinRows) else [t] + rs
    ensures UniqueKeys(rs') && (HasKey(rs', s) <==> HasKey(rs, s) || t.key == s)
    ensures Vals(rs', s) == Vals(rs, s) + (if t.key == s then t.vals else [])
  {
    ValsOfKey(rs, s);
    if HasKey(rs, t.key) {
      rs' := Extend(t, rs, JoinRows);
      ExtendVals(t, rs, JoinRows, s);
      ValsOfKey(rs', s);
    } else {
      rs' := [t] + rs;
      HasKeyCons(t, rs, s);
    }
  }

  /** Joining state mappings files every row under its state, earlier lists first. */
  lemma {:induction false} MergeRows(rs: seq<StateMapping>, ts: seq<StateMapping>, s: State)
    requires UniqueKeys(rs)
    ensures UniqueKeys(MergeFrom(rs, ts, JoinRows))
    ensures HasKey(MergeFrom(rs, ts, JoinRows), s) <==> HasKey(rs, s) || HasKey(ts, s)
    ensures Vals(MergeFrom(rs, ts, JoinRows), s) == Vals(rs, s) + AllVals(ts, s)
    decreases |ts|
  {
    if ts != [] {
      var rs' := FileRows(rs, ts[0], s);
      MergeFromStep(rs, ts, JoinRows);
      MergeRows(rs', ts[1..], s);
      assert ts == [ts[0]] + ts[1..];
      HasKeyCons(ts[0], ts[1..], s);
      Assoc(Vals(rs, s), if ts[0].key == s then ts[0].vals else [], AllVals(ts[1..], s));
    }
  }

  lemma JoinStatesSpec(a: seq<StateMapping>, b: seq<StateMapping>, s: State)
    requires UniqueKeys(a) && UniqueKeys(b)
    ensures UniqueKeys(JoinStates(a, b))
    ensures HasKey(JoinStates(a, b), s) <==> HasKey(a, s) || HasKey(b, s)
    ensures Vals(JoinStates(a, b), s) == Vals(a, s) + Vals(b, s)
  {
    AllValsConcat(a, b, s);
    HasKeyConcat(a, b, s);
    ValsOfKey(a, s);
    ValsOfKey(b, s);
    if |a + b| == 1 {
      assert a + b == a || a + b == b;
      ValsOfKey(a + b, s);
    } else {
      MergeRows([], a + b, s);
    }
  }

  lemma HasKeyConcat<K, V>(a: seq<Mapping<K, V>>, b: seq<Mapping<K, V>>, k: K)
    ensures HasKey(a + b, k) <==> HasKey(a, k) || HasKey(b, k)
  {
    if HasKey(a, k) {
      var i :| 0 <= i < |a| && a[i].key == k;
      assert (a + b)[i].key == k;
    }
    if HasKey(b, k) {
      var i :| 0 <= i < |b| && b[i].key == k;
      assert (a + b)[|a| + i].key == k;
    }
  }

  /** Every event's state mappings have distinct states, and a state is a key exactly when it has rows. */
  ghost predicate WellIndexed(rs: seq<EventMapping>) {
    && UniqueKeys(rs)
    && forall i :: 0 <= i < |rs| ==> UniqueKeys(rs[i].vals)
  }

  lemma WellIndexedVals(rs: seq<EventMapping>, e: Event)
    requires WellIndexed(rs)
    ensures UniqueKeys(Vals(rs, e))
  {
    ValsOfKey(rs, e);
  }

  lemma SelectOne(row: Row, e: Event, s: State)
    ensures Select([row], e, s) == if row.event == e && row.src == s then [row] else []
    ensures Vals([Mapping(row.src, [row])], s) == if row.src == s then [row] else []
    ensures HasKey([Mapping(row.src, [row])], s) <==> row.src == s
    ensures UniqueKeys([Mapping(row.src, [row])])
  {
    assert [Mapping(row.src, [row])][0].key == row.src;
  }

  lemma ExtendWellIndexed(rs: seq<EventMapping>, row: Row)
    requires WellIndexed(rs)
    ensures WellIndexed(Extend(Mapping(row.event, [Mapping(row.src, [row])]), rs, JoinStates))
  {
    var inner := [Mapping(row.src, [row])];
    var t := Mapping(row.event, inner);
    var rs' := Extend(t, rs, JoinStates);
    ExtendSpec(t, rs, JoinStates);
    SelectOne(row, row.event, row.src);
    forall i | 0 <= i < |rs'| ensures UniqueKeys(rs'[i].vals) {
      JoinStatesSpec(rs[i].vals, inner, row.src);
    }
  }

  lemma ExtendEventVals(rs: seq<EventMapping>, row: Row, e: Event)
    requires HasKey(rs, row.event)
    ensures var rs' := Extend(Mapping(row.event, [Mapping(row.src, [row])]), rs, JoinStates);
            && (HasKey(rs', e) <==> HasKey(rs, e))
            && Vals(rs', e)
               == if row.event == e then JoinStates(Vals(rs, e), [Mapping(row.src, [row])]) else Vals(rs, e)
  {
    var t := Mapping(row.event, [Mapping(row.src, [row])]);
    ExtendVals(t, rs, JoinStates, e);
    ValsOfKey(rs, e);
    ValsOfKey(Extend(t, rs, JoinStates), e);
  }

  /** One fold step of the event level, seen from one event and one state. */
  lemma MergeStep(rs: seq<EventMapping>, row: Row, e: Event, s: State) returns (rs': seq<EventMapping>)
    requires WellIndexed(rs)
    ensures var t := Mapping(row.event, [Mapping(row.src, [row])]);
            rs' == if HasKey(rs, t.key) then Extend(t, rs, JoinStates) else [t] + rs
    ensures WellIndexed(rs')
    ensures HasKey(rs', e) <==> HasKey(rs, e) || row.event == e
    ensures Vals(Vals(rs', e), s) == Vals(Vals(rs, e), s) + Select([row], e, s)
    ensures HasKey(Vals(rs', e), s) <==> HasKey(Vals(rs, e), s) || (row.event == e && row.src == s)
  {
    var inner := [Mapping(row.src, [row])];
    var t := Mapping(row.event, inner);
    SelectOne(row, e, s);
    ValsOfKey(rs, e);
    if HasKey(rs, t.key) {
      rs' := Extend(t, rs, JoinStates);
      ExtendWellIndexed(rs, row);
      ExtendEventVals(rs, row, e);
      if row.event == e {
        WellIndexedVals(rs, e);
        JoinStatesSpec(Vals(rs, e), inner, s);
      }
    } else {
      rs' := [t] + rs;
      HasKeyCons(t, rs, e);
    }
  }

  /** What filing `table` on top of `rs` must give for one event and one state. */
  ghost predicate Filed(rs: seq<EventMapping>, r: seq<EventMapping>, table: seq<Row>, e: Event, s: State) {
    && WellIndexed(r)
    && (HasKey(r, e) <==> HasKey(rs, e) || HasEvent(table, e))
    && Vals(Vals(r, e), s) == Vals(Vals(rs, e), s) + Select(table, e, s)
    && (HasKey(Vals(r, e), s) <==> HasKey(Vals(rs, e), s) || Select(table, e, s) != [])
  }

  lemma SelectCons(table: seq<Row>, e: Event, s: State)
    requires table != []
    ensures Select(table, e, s) == Select([table[0]], e, s) + Select(table[1..], e, s)
    ensures Select(table, e, s) != [] <==> (table[0].event == e && table[0].src == s) || Select(table[1..], e, s) != []
  {
    assert table == [table[0]] + table[1..];
    SelectConcat([table[0]], table[1..], e, s);
    SelectOne(table[0], e, s);
  }

  lemma HasEventCons(table: seq<Row>, e: Event)
    requires table != []
    ensures HasEvent(table, e) <==> table[0].event == e || HasEvent(table[1..], e)
  {
    if HasEvent(table[1..], e) {
      var i :| 0 <= i < |table[1..]| && table[1..][i].event == e;
      assert table[i + 1].event == e;
    }
    if HasEvent(table, e) && table[0].event != e {
      var i :| 0 <= i < |table| && table[i].event == e;
      assert table[1..][i - 1].event == e;
    }
  }

  lemma FiledStep(rs: seq<EventMapping>, rs': seq<EventMapping>, r: seq<EventMapping>,
                  table: seq<Row>, e: Event, s: State)
    requires table != []
    requires HasKey(rs', e) <==> HasKey(rs, e) || table[0].event == e
    requires Vals(Vals(rs', e), s) == Vals(Vals(rs, e), s) + Select([table[0]], e, s)
    requires HasKey(Vals(rs', e), s) <==> HasKey(Vals(rs, e), s) || (table[0].event == e && table[0].src == s)
    requires Filed(rs', r, table[1..], e, s)
    ensures Filed(rs, r, table, e, s)
  {
    SelectCons(table, e, s);
    HasEventCons(table, e);
    Assoc(Vals(Vals(rs, e), s), Select([table[0]], e, s), Select(table[1..], e, s));
  }

  lemma {:induction false} MergeEvents(rs: seq<EventMapping>, table: seq<Row>, e: Event, s: State)
    requires WellIndexed(rs)
    ensures Filed(rs, MergeFrom(rs, RowMappings(table), JoinStates), table, e, s)
    decreases |table|
  {
    if table != [] {
      var rs' := MergeStep(rs, table[0], e, s);
      MergeFromRow(rs, table);
      MergeEvents(rs', table[1..], e, s);
      FiledStep(rs, rs', MergeFrom(rs', RowMappings(table[1..]), JoinStates), table, e, s);
    }
  }

  lemma MergeFromRow(rs: seq<EventMapping>, table: seq<Row>)
    requires table != []
    ensures var t := Mapping(table[0].event, [Mapping(table[0].src, [table[0]])]);
            MergeFrom(rs, RowMappings(table), JoinStates)
            == MergeFrom(if HasKey(rs, t.key) then Extend(t, rs, JoinStates) else [t] + rs,
                         RowMappings(table[1..]), JoinStates)
  {
    assert RowMappings(table)[1..] == RowMappings(table[1..]);
  }

  /** `Compile` indexes every row of the table, in declaration order, and nothing else. */
  lemma CompileSpec(table: seq<Row>, e: Event, s: State)
    ensures WellIndexed(Compile(table))
    ensures HasKey(Compile(table), e) <==> HasEvent(table, e)
    ensures Vals(Vals(Compile(table), e), s) == Select(table, e, s)
    ensures HasKey(Vals(Compile(table), e), s) <==> Select(table, e, s) != []
  {
    MergeEvents([], table, e, s);
    if |table| == 1 {
      MergeFromRow([], table);
      assert Compile(table) == RowMappings(table);
    }
  }

  lemma EventMappingIsDeclared(table: seq<Row>, e: Event, s: State)
    ensures var rs := GetEventMapping(Compile(table), e);
            && (HasKey(rs, s) <==> DeclaredRows(table, e, s) != [])
            && Vals(rs, s) == DeclaredRows(table, e, s)
  {
    var ms := Compile(table);
    CompileSpec(table, e, s);
    if HasKey(ms, e) && !OwnRowsOnly(e) {
      CompileSpec(table, Any, s);
      if HasKey(ms, Any) {
        WellIndexedVals(ms, e);
        WellIndexedVals(ms, Any);
        JoinStatesSpec(Vals(ms, e), Vals(ms, Any), s);
      } else {
        ValsOfKey(ms, Any);
      }
    }
  }

  /**
   The compiled index answers every lookup as the declared table does: own rows first, then
   the wildcard rows, all in declaration order; and it answers `Unmapped` exactly when there
   is no such row.
   */
  lemma LookupIsDeclared(table: seq<Row>, e: Event, s: State)
    ensures Lookup(Compile(table), e, s)
         == if DeclaredRows(table, e, s) == [] then Unmapped else Found(DeclaredRows(table, e, s))
  {
    EventMappingIsDeclared(table, e, s);
  }

  // ----- states and their ids -----

  function AllStates(table: seq<Row>): seq<State> {
    if table == [] then [] else [table[0].src, table[0].dst] + AllStates(table[1..])
  }

  function States(table: seq<Row>): seq<State> {
    Unique(AllStates(table))
  }

  function Starred(table: seq<Row>): seq<State> {
    if table == [] then []
    else (if table[0].initial then [table[0].src] else []) + Starred(table[1..])
  }

  function InitialStates(table: seq<Row>): seq<State> {
    Unique(Starred(table))
  }

  /** The source calls these `history_states`; they are the starred states without history, not made unique. */
  function ResetStates(table: seq<Row>): seq<State> {
    if table == [] then []
    else (if table[0].initial && !table[0].history then [table[0].src] else []) + ResetStates(table[1..])
  }

  /** `state_t`: a byte up to 255 states, otherwise an unsigned short. */
  function IdRange(states: nat): nat {
    if states > 0xFF then 0x1_0000 else 0x100
  }

  /** The id `get_id` returns, narrowed to `state_t`. */
  function StateId(table: seq<Row>, s: State): nat {
    IndexOf(States(table), s) % IdRange(|States(table)|)
  }

  lemma {:induction false} AllStatesLength(table: seq<Row>)
    ensures |AllStates(table)| == 2 * |table|
  {
    if table != [] {
      AllStatesLength(table[1..]);
    }
  }

  lemma {:induction false} StatesSpec(table: seq<Row>, s: State)
    ensures s in States(table) <==> exists i :: 0 <= i < |table| && (table[i].src == s || table[i].dst == s)
  {
    UniqueIsRemoveDuplicates(AllStates(table));
    if table != [] {
      StatesSpec(table[1..], s);
      UniqueIsRemoveDuplicates(AllStates(table[1..]));
      assert table == [table[0]] + table[1..];
      if s in AllStates(table[1..]) {
        var i :| 0 <= i < |table[1..]| && (table[1..][i].src == s || table[1..][i].dst == s);
        assert table[i + 1] == table[1..][i];
      }
    }
  }

  lemma {:induction false} StarredSpec(table: seq<Row>, s: State)
    ensures s in Starred(table) <==> exists i :: 0 <= i < |table| && table[i].initial && table[i].src == s
  {
    if table != [] {
      StarredSpec(table[1..], s);
      if s in Starred(table[1..]) {
        var i :| 0 <= i < |table[1..]| && table[1..][i].initial && table[1..][i].src == s;
        assert table[i + 1] == table[1..][i];
      }
      if i :| 0 < i < |table| && table[i].initial && table[i].src == s {
        assert table[1..][i - 1] == table[i];
      }
    }
  }

  lemma InitialStatesSpec(table: seq<Row>, s: State)
    ensures s in InitialStates(table) <==> exists i :: 0 <= i < |table| && table[i].initial && table[i].src == s
    ensures s in InitialStates(table) ==> s in States(table)
    ensures Distinct(InitialStates(table))
  {
    UniqueIsRemoveDuplicates(Starred(table));
    StatesSpec(table, s);
    StarredSpec(table, s);
  }

  lemma StateIdOf(table: seq<Row>, s: State)
    requires |States(table)| <= 0x1_0000 && s in States(table)
    ensures StateId(table, s) < |States(table)| && States(table)[StateId(table, s)] == s
  {
    var i := IndexOf(States(table), s);
    assert i < |States(table)| <= IdRange(|States(table)|);
    assert i % IdRange(|States(table)|) == i;
  }

  lemma IdsWrap(table: seq<Row>)
    requires |States(table)| > 0x1_0000
    ensures States(table)[0x1_0000] in States(table) && StateId(table, States(table)[0x1_0000]) == 0
    ensures States(table)[0] != States(table)[0x1_0000]
  {
    UniqueIsRemoveDuplicates(AllStates(table));
    IndexOfDistinct(States(table), 0x1_0000);
  }

  /** Ids name states without loss exactly when an unsigned short can count them. */
  lemma StateIdsAreLossless(table: seq<Row>)
    ensures |States(table)| <= 0x1_0000 <==>
            forall s :: s in States(table) ==>
              StateId(table, s) < |States(table)| && States(table)[StateId(table, s)] == s
  {
    if |States(table)| <= 0x1_0000 {
      forall s | s in States(table)
        ensures StateId(table, s) < |States(table)| && States(table)[StateId(table, s)] == s
      {
        StateIdOf(table, s);
      }
    } else {
      IdsWrap(table);
    }
  }
}
