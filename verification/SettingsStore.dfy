/**
  The versioned settings of a unit (src/units/settings.py): drafts, compare-and-set activation, rollback,
  and the theorem that the activated versions form one chain whose intervals tile time.
 */
module SettingsStore {
  import opened Wrappers

  datatype Status = Draft | Active | Retired

  // The content of a settings mapping is opaque; `valid` says whether the schema accepts it.
  datatype Settings = Settings(content: string, valid: bool)

  datatype Row = Row(
    version: nat,
    status: Status,
    settings: Settings,
    from: Option<int>,
    to: Option<int>,
    previous: Option<nat>,
    rollbackOf: Option<nat>)

  datatype Answer = Ok(row: Row) | Refused

  // Lookups

  // The first row with the version.
  function Find(rows: seq<Row>, version: nat): (i: Option<nat>)
    ensures i.Some? ==> i.value < |rows| && rows[i.value].version == version
    ensures i.None? ==> forall k :: 0 <= k < |rows| ==> rows[k].version != version
  {
    if rows == [] then None
    else
      var i := Find(rows[..|rows| - 1], version);
      if i.Some? then i else if rows[|rows| - 1].version == version then Some(|rows| - 1) else None
  }

  // The version of the first ACTIVE row, or 0.
  function CurrentActive(rows: seq<Row>): nat {
    if rows == [] then 0
    else if rows[0].status.Active? then rows[0].version
    else CurrentActive(rows[1..])
  }

  predicate InForce(row: Row, at: int) {
    row.from.Some? && row.from.value <= at && (row.to.Some? ==> at < row.to.value)
  }

  function GetActive(rows: seq<Row>, at: int): Option<Row> {
    if rows == [] then None
    else if rows[0].status.Active? && InForce(rows[0], at) then Some(rows[0])
    else GetActive(rows[1..], at)
  }

  // Commands

  function NewDraft(rows: seq<Row>, settings: Settings, rollbackOf: Option<nat>): Row {
    Row(|rows| + 1, Draft, settings, None, None, None, rollbackOf)
  }

  function DraftStep(rows: seq<Row>, settings: Settings): (seq<Row>, Answer) {
    if !settings.valid then (rows, Refused)
    else (rows + [NewDraft(rows, settings, None)], Ok(NewDraft(rows, settings, None)))
  }

  // Every ACTIVE row is retired at the start of its successor.
  function RetireRow(row: Row, from: int): Row {
    if row.status.Active? then row.(status := Retired, to := Some(from)) else row
  }

  function Retire(rows: seq<Row>, from: int): (r: seq<Row>)
    ensures |r| == |rows| && forall k :: 0 <= k < |rows| ==> r[k] == RetireRow(rows[k], from)
  {
    if rows == [] then [] else Retire(rows[..|rows| - 1], from) + [RetireRow(rows[|rows| - 1], from)]
  }

  function Replace(rows: seq<Row>, version: nat, row: Row): (r: seq<Row>)
    ensures |r| == |rows| && forall k :: 0 <= k < |rows| ==> r[k] == if rows[k].version == version then row else rows[k]
  {
    if rows == [] then []
    else
      var last := rows[|rows| - 1];
      Replace(rows[..|rows| - 1], version, row) + [if last.version == version then row else last]
  }

  // The new version would start before the one that is active.
  predicate Regresses(rows: seq<Row>, from: int) {
    var current := Find(rows, CurrentActive(rows));
    CurrentActive(rows) != 0 && current.Some? && rows[current.value].from.Some? && from < rows[current.value].from.value
  }

  function Activated(target: Row, current: nat, from: int): Row {
    target.(status := Active, from := Some(from), previous := if current == 0 then None else Some(current))
  }

  function ActivateStep(rows: seq<Row>, version: nat, expected: nat, from: int): (seq<Row>, Answer) {
    var current := CurrentActive(rows);
    if expected != current || Regresses(rows, from) then (rows, Refused)
    else
      match Find(rows, version)
      case None => (rows, Refused)
      case Some(i) =>
        if !rows[i].status.Draft? then (rows, Refused)
        else
          var row := Activated(rows[i], current, from);
          (Replace(Retire(rows, from), version, row), Ok(row))
  }

  function RollbackStep(rows: seq<Row>, toVersion: nat, expected: nat, from: int): (seq<Row>, Answer) {
    match Find(rows, toVersion)
    case None => (rows, Refused)
    case Some(i) =>
      if expected != CurrentActive(rows) || !rows[i].settings.valid then (rows, Refused)
      else ActivateStep(rows + [NewDraft(rows, rows[i].settings, Some(toVersion))], |rows| + 1, expected, from)
  }

  // Runs

  // `chain` records the rows in order of activation, `wins` the expected version of each successful activation.
  datatype History = History(rows: seq<Row>, chain: seq<nat>, wins: seq<nat>)

  datatype Op =
    | MakeDraft(settings: Settings)
    | Activate(version: nat, expected: nat, from: int)
    | Rollback(toVersion: nat, expected: nat, from: int)

  const START: History := History([], [], [])

  function Perform(rows: seq<Row>, op: Op): (seq<Row>, Answer) {
    match op
    case MakeDraft(settings) => DraftStep(rows, settings)
    case Activate(version, expected, from) => ActivateStep(rows, version, expected, from)
    case Rollback(toVersion, expected, from) => RollbackStep(rows, toVersion, expected, from)
  }

  function Step(h: History, op: Op): History {
    var (rows, answer) := Perform(h.rows, op);
    if op.MakeDraft? || !answer.Ok? || answer.row.version == 0 then History(rows, h.chain, h.wins)
    else History(rows, h.chain + [answer.row.version - 1], h.wins + [op.expected])
  }

  function Run(ops: seq<Op>): History {
    if ops == [] then START else Step(Run(ops[..|ops| - 1]), ops[|ops| - 1])
  }

  // The chain

  predicate Numbered(rows: seq<Row>) {
    forall i :: 0 <= i < |rows| ==> rows[i].version == i + 1 && rows[i].settings.valid && (rows[i].status.Draft? ==> rows[i].to.None?)
  }

  // The k-th activated row: behind its predecessor, ended by its successor, ACTIVE only when it is the last.
  predicate Link(rows: seq<Row>, chain: seq<nat>, k: nat)
    requires k < |chain|
  {
    && chain[k] < |rows|
    && var row := rows[chain[k]];
    && row.from.Some?
    && row.previous == (if k == 0 then None else Some(chain[k - 1] + 1))
    && (if k == |chain| - 1 then row.status.Active? && row.to.None?
        else row.status.Retired? && chain[k + 1] < |rows| && row.to == rows[chain[k + 1]].from
             && row.to.Some? && row.from.value <= row.to.value)
  }

  ghost predicate Chained(rows: seq<Row>, chain: seq<nat>) {
    && (forall k :: 0 <= k < |chain| ==> Link(rows, chain, k))
    && (forall j, k :: 0 <= j < k < |chain| ==> chain[j] != chain[k])
    && (forall i :: 0 <= i < |rows| ==> (i in chain <==> !rows[i].status.Draft?))
  }

  predicate WinsMatch(chain: seq<nat>, wins: seq<nat>) {
    |wins| == |chain| && forall k :: 0 <= k < |wins| ==> wins[k] == if k == 0 then 0 else chain[k - 1] + 1
  }

  ghost predicate HistoryInv(h: History) {
    Numbered(h.rows) && Chained(h.rows, h.chain) && WinsMatch(h.chain, h.wins)
  }

  lemma {:induction false} FindIs(rows: seq<Row>, i: nat)
    requires Numbered(rows) && i < |rows|
    ensures Find(rows, i + 1) == Some(i)
  {
    assert rows[i].version == i + 1;
    var k := Find(rows, i + 1).value;
    assert rows[k].version == k + 1;
  }

  // The one ACTIVE row is what the scan finds.
  lemma {:induction false} CurrentIs(rows: seq<Row>, i: nat)
    requires i < |rows| && rows[i].status.Active? && forall k :: 0 <= k < |rows| && rows[k].status.Active? ==> k == i
    ensures CurrentActive(rows) == rows[i].version
  {
    if i > 0 {
      assert !rows[0].status.Active?;
      CurrentIs(rows[1..], i - 1);
    }
  }

  lemma {:induction false} CurrentNone(rows: seq<Row>)
    requires forall k :: 0 <= k < |rows| ==> !rows[k].status.Active?
    ensures CurrentActive(rows) == 0
  {
    if rows != [] {
      CurrentNone(rows[1..]);
    }
  }

  // Exactly one row is ACTIVE once anything was activated: the last of the chain.
  lemma {:induction false} OneActive(rows: seq<Row>, chain: seq<nat>, i: nat)
    requires Chained(rows, chain) && i < |rows|
    ensures rows[i].status.Active? <==> chain != [] && i == chain[|chain| - 1]
  {
    if chain != [] {
      assert Link(rows, chain, |chain| - 1);
    }
    if rows[i].status.Active? {
      assert i in chain;
      var k :| 0 <= k < |chain| && chain[k] == i;
      assert Link(rows, chain, k);
    }
  }

  lemma {:induction false} CurrentOfChain(rows: seq<Row>, chain: seq<nat>)
    requires Numbered(rows) && Chained(rows, chain)
    ensures chain == [] ==> CurrentActive(rows) == 0
    ensures chain != [] ==> chain[|chain| - 1] < |rows| && CurrentActive(rows) == chain[|chain| - 1] + 1
  {
    forall i | 0 <= i < |rows|
      ensures rows[i].status.Active? <==> chain != [] && i == chain[|chain| - 1]
    {
      OneActive(rows, chain, i);
    }
    if chain == [] {
      CurrentNone(rows);
    } else {
      assert Link(rows, chain, |chain| - 1);
      CurrentIs(rows, chain[|chain| - 1]);
    }
  }

  lemma {:induction false} DraftKeeps(rows: seq<Row>, chain: seq<nat>, row: Row)
    requires Numbered(rows) && Chained(rows, chain) && row.version == |rows| + 1 && row.settings.valid && row.status.Draft? && row.to.None?
    ensures Numbered(rows + [row]) && Chained(rows + [row], chain)
  {
    forall k | 0 <= k < |chain| ensures Link(rows + [row], chain, k) { assert Link(rows, chain, k); }
    forall k | 0 <= k < |chain| ensures chain[k] != |rows| { assert Link(rows, chain, k); }
  }

  // The rows after a successful activation of row i.
  function Successor(rows: seq<Row>, i: nat, from: int): seq<Row>
    requires i < |rows|
  {
    Replace(Retire(rows, from), i + 1, Activated(rows[i], CurrentActive(rows), from))
  }

  lemma {:induction false} ActivatedRows(rows: seq<Row>, chain: seq<nat>, i: nat, from: int)
    requires Numbered(rows) && Chained(rows, chain) && i < |rows| && rows[i].status.Draft?
    ensures var row := Activated(rows[i], CurrentActive(rows), from); var rows' := Replace(Retire(rows, from), i + 1, row);
      && |rows'| == |rows| && rows'[i] == row
      && forall k :: 0 <= k < |rows| && k != i ==>
           rows'[k] == if chain != [] && k == chain[|chain| - 1] then rows[k].(status := Retired, to := Some(from)) else rows[k]
  {
    forall k | 0 <= k < |rows|
      ensures rows[k].status.Active? <==> chain != [] && k == chain[|chain| - 1]
    {
      OneActive(rows, chain, k);
    }
  }

  // Rows before and after an activation of row i.
  ghost predicate Moves(rows: seq<Row>, rows': seq<Row>, chain: seq<nat>, i: nat, from: int)
    requires i < |rows|
  {
    && |rows'| == |rows|
    && rows'[i] == rows[i].(status := Active, from := Some(from), previous := if chain == [] then None else Some(chain[|chain| - 1] + 1))
    && forall k :: 0 <= k < |rows| && k != i ==>
         rows'[k] == if chain != [] && k == chain[|chain| - 1] then rows[k].(status := Retired, to := Some(from)) else rows[k]
  }

  lemma {:induction false} LinksGrow(rows: seq<Row>, rows': seq<Row>, chain: seq<nat>, i: nat, from: int)
    requires Chained(rows, chain) && i < |rows| && i !in chain && rows[i].to.None? && Moves(rows, rows', chain, i, from)
    requires chain != [] ==> Link(rows, chain, |chain| - 1) && rows[chain[|chain| - 1]].from.value <= from
    ensures forall k :: 0 <= k < |chain| + 1 ==> Link(rows', chain + [i], k)
  {
    var longer := chain + [i];
    forall k | 0 <= k < |longer|
      ensures Link(rows', longer, k)
    {
      if k < |chain| {
        assert Link(rows, chain, k);
        assert chain[k] in chain;
        if k < |chain| - 1 {
          assert Link(rows, chain, k + 1);
          assert chain[k + 1] in chain;
        }
      }
    }
  }

  lemma {:induction false} ChainGrows(rows: seq<Row>, rows': seq<Row>, chain: seq<nat>, i: nat, from: int)
    requires Numbered(rows) && Chained(rows, chain) && i < |rows| && rows[i].status.Draft? && Moves(rows, rows', chain, i, from)
    requires chain != [] ==> Link(rows, chain, |chain| - 1) && rows[chain[|chain| - 1]].from.value <= from
    ensures Numbered(rows') && Chained(rows', chain + [i])
  {
    LinksGrow(rows, rows', chain, i, from);
    if chain != [] { assert chain[|chain| - 1] in chain; }
    forall j | 0 <= j < |rows'|
      ensures j in chain + [i] <==> !rows'[j].status.Draft?
    {
      assert j in chain + [i] <==> j in chain || j == i;
    }
  }

  // The current version starts no later than an activation that is not refused.
  lemma {:induction false} NotRegressing(rows: seq<Row>, chain: seq<nat>, from: int)
    requires Numbered(rows) && Chained(rows, chain)
    ensures chain != [] ==> Link(rows, chain, |chain| - 1)
    ensures Regresses(rows, from) <==> chain != [] && from < rows[chain[|chain| - 1]].from.value
  {
    CurrentOfChain(rows, chain);
    if chain != [] {
      FindIs(rows, chain[|chain| - 1]);
      assert Link(rows, chain, |chain| - 1);
    }
  }

  lemma {:induction false} ActivateKeeps(rows: seq<Row>, chain: seq<nat>, i: nat, from: int)
    requires Numbered(rows) && Chained(rows, chain) && i < |rows| && rows[i].status.Draft? && !Regresses(rows, from)
    ensures Numbered(Successor(rows, i, from)) && Chained(Successor(rows, i, from), chain + [i])
  {
    ActivatedRows(rows, chain, i, from);
    CurrentOfChain(rows, chain);
    NotRegressing(rows, chain, from);
    ChainGrows(rows, Successor(rows, i, from), chain, i, from);
  }

  // An accepted command: a new draft, or an activation of a row that was a draft before.
  lemma {:induction false} ActivateForm(rows: seq<Row>, chain: seq<nat>, version: nat, expected: nat, from: int)
    requires Numbered(rows) && Chained(rows, chain)
    ensures var (rows', answer) := ActivateStep(rows, version, expected, from);
      && (!answer.Ok? ==> rows' == rows)
      && (answer.Ok? ==>
            && 1 <= version <= |rows| && answer.row.version == version && rows[version - 1].status.Draft?
            && expected == CurrentActive(rows) && !Regresses(rows, from)
            && rows' == Successor(rows, version - 1, from))
  {
    var i := Find(rows, version);
    if i.Some? {
      assert rows[i.value].version == i.value + 1;
    }
  }

  // The version that must be expected: the last of the chain.
  function LastVersion(chain: seq<nat>): nat {
    if chain == [] then 0 else chain[|chain| - 1] + 1
  }

  // Activating a known draft succeeds exactly when the expected version is current and the start does not regress.
  lemma {:induction false} ActivateStepKeeps(rows: seq<Row>, chain: seq<nat>, version: nat, expected: nat, from: int)
    requires Numbered(rows) && Chained(rows, chain)
    ensures var (rows', answer) := ActivateStep(rows, version, expected, from);
      && (!answer.Ok? ==> rows' == rows)
      && (answer.Ok? ==> && 1 <= version <= |rows| && answer.row.version == version && expected == LastVersion(chain)
                         && Numbered(rows') && Chained(rows', chain + [version - 1]))
  {
    ActivateForm(rows, chain, version, expected, from);
    CurrentOfChain(rows, chain);
    if ActivateStep(rows, version, expected, from).1.Ok? {
      ActivateKeeps(rows, chain, version - 1, from);
    }
  }

  lemma {:induction false} WinsGrow(chain: seq<nat>, wins: seq<nat>, i: nat)
    requires WinsMatch(chain, wins)
    ensures WinsMatch(chain + [i], wins + [LastVersion(chain)])
  {
  }

  // The rows with a draft copy of a version: what a rollback activates.
  function Copied(rows: seq<Row>, version: nat): seq<Row>
    requires 1 <= version <= |rows|
  {
    rows + [NewDraft(rows, rows[version - 1].settings, Some(version))]
  }

  lemma {:induction false} CopyKeeps(rows: seq<Row>, chain: seq<nat>, version: nat)
    requires Numbered(rows) && Chained(rows, chain) && 1 <= version <= |rows|
    ensures Numbered(Copied(rows, version)) && Chained(Copied(rows, version), chain)
  {
    DraftKeeps(rows, chain, NewDraft(rows, rows[version - 1].settings, Some(version)));
  }

  // A rollback to a known version whose expected version is current drafts a copy and activates it.
  lemma {:induction false} RollbackForm(rows: seq<Row>, toVersion: nat, expected: nat, from: int)
    requires Numbered(rows)
    ensures var (rows', answer) := RollbackStep(rows, toVersion, expected, from);
      if 1 <= toVersion <= |rows| && expected == CurrentActive(rows)
      then (rows', answer) == ActivateStep(Copied(rows, toVersion), |rows| + 1, expected, from)
      else rows' == rows && answer == Refused
  {
    if 1 <= toVersion <= |rows| {
      FindIs(rows, toVersion - 1);
    }
  }

  lemma {:induction false} RollbackStepKeeps(rows: seq<Row>, chain: seq<nat>, toVersion: nat, expected: nat, from: int)
    requires Numbered(rows) && Chained(rows, chain)
    ensures var (rows', answer) := RollbackStep(rows, toVersion, expected, from);
      && (!answer.Ok? ==> Numbered(rows') && Chained(rows', chain))
      && (answer.Ok? ==> && answer.row.version == |rows| + 1 && expected == LastVersion(chain)
                         && Numbered(rows') && Chained(rows', chain + [|rows|]))
  {
    RollbackForm(rows, toVersion, expected, from);
    if 1 <= toVersion <= |rows| {
      CopyKeeps(rows, chain, toVersion);
      ActivateStepKeeps(Copied(rows, toVersion), chain, |rows| + 1, expected, from);
    }
  }

  lemma {:induction false} ActivateIsStep(h: History, op: Op, rows: seq<Row>, answer: Answer)
    requires op.Activate? && ActivateStep(h.rows, op.version, op.expected, op.from) == (rows, answer)
    requires answer.Ok? && answer.row.version == op.version > 0
    ensures Step(h, op) == History(rows, h.chain + [op.version - 1], h.wins + [op.expected])
  {
  }

  lemma {:induction false} ActivationKeeps(h: History, op: Op)
    requires HistoryInv(h) && op.Activate?
    ensures HistoryInv(Step(h, op))
  {
    var (rows, answer) := ActivateStep(h.rows, op.version, op.expected, op.from);
    ActivateStepKeeps(h.rows, h.chain, op.version, op.expected, op.from);
    if answer.Ok? {
      ActivateIsStep(h, op, rows, answer);
      WinsGrow(h.chain, h.wins, op.version - 1);
    } else {
      assert Step(h, op) == h;
    }
  }

  lemma {:induction false} RollingBackKeeps(h: History, op: Op)
    requires HistoryInv(h) && op.Rollback?
    ensures HistoryInv(Step(h, op))
  {
    RollbackStepKeeps(h.rows, h.chain, op.toVersion, op.expected, op.from);
    WinsGrow(h.chain, h.wins, |h.rows|);
  }

  lemma {:induction false} StepKeeps(h: History, op: Op)
    requires HistoryInv(h)
    ensures HistoryInv(Step(h, op))
  {
    match op
    case MakeDraft(settings) =>
      if settings.valid {
        DraftKeeps(h.rows, h.chain, NewDraft(h.rows, settings, None));
      }
    case Activate(_, _, _) => ActivationKeeps(h, op);
    case Rollback(_, _, _) => RollingBackKeeps(h, op);
  }

  lemma {:induction false} RunKeeps(ops: seq<Op>)
    ensures HistoryInv(Run(ops))
  {
    if ops != [] {
      RunKeeps(ops[..|ops| - 1]);
      StepKeeps(Run(ops[..|ops| - 1]), ops[|ops| - 1]);
    }
  }

  // Main results

  // In every reachable state the activated versions form one chain through previous_version, in order of activation,
  // ending in the one ACTIVE row, and each expected version has won at most once.
  lemma {:induction false} OneChain(ops: seq<Op>)
    ensures var h := Run(ops);
      && (forall i :: 0 <= i < |h.rows| ==> (!h.rows[i].status.Draft? <==> i in h.chain))
      && (forall k :: 0 <= k < |h.chain| ==> Link(h.rows, h.chain, k))
      && (forall j, k :: 0 <= j < k < |h.chain| ==> h.chain[j] != h.chain[k])
      && (forall i :: 0 <= i < |h.rows| ==> (h.rows[i].status.Active? <==> h.chain != [] && i == h.chain[|h.chain| - 1]))
      && (forall j, k :: 0 <= j < k < |h.wins| ==> h.wins[j] != h.wins[k])
  {
    RunKeeps(ops);
    var h := Run(ops);
    forall i | 0 <= i < |h.rows| ensures h.rows[i].status.Active? <==> h.chain != [] && i == h.chain[|h.chain| - 1] {
      OneActive(h.rows, h.chain, i);
    }
  }

  // Starts never decrease along the chain.
  lemma {:induction false} StartsIncrease(rows: seq<Row>, chain: seq<nat>, j: nat, k: nat)
    requires Chained(rows, chain) && j <= k < |chain|
    ensures Link(rows, chain, j) && Link(rows, chain, k) && rows[chain[j]].from.value <= rows[chain[k]].from.value
  {
    assert Link(rows, chain, j) && Link(rows, chain, k);
    if j < k {
      StartsIncrease(rows, chain, j, k - 1);
    }
  }

  // The link in force at a time: it exists from the first start on.
  lemma {:induction false} SomeInForce(rows: seq<Row>, chain: seq<nat>, n: nat, at: int) returns (k: nat)
    requires Chained(rows, chain) && 0 < n <= |chain| && Link(rows, chain, 0) && rows[chain[0]].from.value <= at
    requires n < |chain| ==> Link(rows, chain, n - 1) && at < rows[chain[n - 1]].to.value
    ensures k < n && Link(rows, chain, k) && InForce(rows[chain[k]], at)
  {
    assert Link(rows, chain, n - 1);
    if rows[chain[n - 1]].from.value <= at {
      k := n - 1;
    } else {
      assert n > 1;
      assert Link(rows, chain, n - 2);
      k := SomeInForce(rows, chain, n - 1, at);
    }
  }

  lemma {:induction false} OneInForce(rows: seq<Row>, chain: seq<nat>, j: nat, k: nat, at: int)
    requires Chained(rows, chain) && j < k < |chain| && Link(rows, chain, j) && Link(rows, chain, k)
    ensures !(InForce(rows[chain[j]], at) && InForce(rows[chain[k]], at))
  {
    StartsIncrease(rows, chain, j + 1, k);
  }

  lemma {:induction false} PlaceInChain(rows: seq<Row>, chain: seq<nat>, i: nat) returns (k: nat)
    requires Chained(rows, chain) && i < |rows| && !rows[i].status.Draft?
    ensures k < |chain| && chain[k] == i && Link(rows, chain, k)
  {
    assert i in chain;
    k :| 0 <= k < |chain| && chain[k] == i;
  }

  lemma {:induction false} AtMostOne(rows: seq<Row>, chain: seq<nat>, i: nat, j: nat, at: int)
    requires Chained(rows, chain) && i < j < |rows| && !rows[i].status.Draft? && !rows[j].status.Draft?
    ensures !(InForce(rows[i], at) && InForce(rows[j], at))
  {
    var a := PlaceInChain(rows, chain, i);
    var b := PlaceInChain(rows, chain, j);
    if a < b { OneInForce(rows, chain, a, b, at); } else { OneInForce(rows, chain, b, a, at); }
  }

  lemma {:induction false} NoneBefore(rows: seq<Row>, chain: seq<nat>, i: nat, at: int)
    requires Chained(rows, chain) && i < |rows| && !rows[i].status.Draft? && InForce(rows[i], at)
    ensures chain != [] && Link(rows, chain, 0) && rows[chain[0]].from.value <= at
  {
    var k := PlaceInChain(rows, chain, i);
    StartsIncrease(rows, chain, 0, k);
  }

  // The intervals of the activated versions tile time: from the first start on exactly one version is in force at any
  // time, before it none is.
  lemma {:induction false} IntervalsTile(ops: seq<Op>, at: int)
    requires Run(ops).chain != []
    ensures var h := Run(ops); var first := h.chain[0];
      && first < |h.rows| && h.rows[first].from.Some?
      && ((exists i :: 0 <= i < |h.rows| && !h.rows[i].status.Draft? && InForce(h.rows[i], at)) <==> h.rows[first].from.value <= at)
      && (forall i, j :: 0 <= i < j < |h.rows| && !h.rows[i].status.Draft? && !h.rows[j].status.Draft?
            ==> !(InForce(h.rows[i], at) && InForce(h.rows[j], at)))
  {
    RunKeeps(ops);
    Tiles(Run(ops).rows, Run(ops).chain, at);
  }

  lemma {:induction false} Tiles(rows: seq<Row>, chain: seq<nat>, at: int)
    requires Chained(rows, chain) && chain != []
    ensures Link(rows, chain, 0)
    ensures (exists i :: 0 <= i < |rows| && !rows[i].status.Draft? && InForce(rows[i], at)) <==> rows[chain[0]].from.value <= at
    ensures forall i, j :: 0 <= i < j < |rows| && !rows[i].status.Draft? && !rows[j].status.Draft?
              ==> !(InForce(rows[i], at) && InForce(rows[j], at))
  {
    assert Link(rows, chain, 0);
    if rows[chain[0]].from.value <= at {
      var k := SomeInForce(rows, chain, |chain|, at);
      assert chain[k] in chain;
    }
    if i :| 0 <= i < |rows| && !rows[i].status.Draft? && InForce(rows[i], at) {
      NoneBefore(rows, chain, i, at);
    }
    forall i, j | 0 <= i < j < |rows| && !rows[i].status.Draft? && !rows[j].status.Draft?
      ensures !(InForce(rows[i], at) && InForce(rows[j], at))
    {
      AtMostOne(rows, chain, i, j, at);
    }
  }

  lemma {:induction false} GetActiveIs(rows: seq<Row>, i: nat, at: int)
    requires i < |rows| && rows[i].status.Active? && forall k :: 0 <= k < |rows| && rows[k].status.Active? ==> k == i
    ensures GetActive(rows, at) == if InForce(rows[i], at) then Some(rows[i]) else None
  {
    if i > 0 {
      assert !rows[0].status.Active?;
      GetActiveIs(rows[1..], i - 1, at);
    } else {
      GetActiveNone(rows[1..], at);
    }
  }

  lemma {:induction false} GetActiveNone(rows: seq<Row>, at: int)
    requires forall k :: 0 <= k < |rows| ==> !rows[k].status.Active?
    ensures GetActive(rows, at) == None
  {
    if rows != [] {
      GetActiveNone(rows[1..], at);
    }
  }

  // The version the tiling names at a time, if any.
  ghost predicate Tiled(rows: seq<Row>, at: int, row: Option<Row>) {
    match row
    case Some(r) => exists i :: 0 <= i < |rows| && rows[i] == r && !r.status.Draft? && InForce(r, at)
    case None => forall i :: 0 <= i < |rows| && !rows[i].status.Draft? ==> !InForce(rows[i], at)
  }

  // get_active answers what the tiling names exactly from the start of the current version on, or before the first
  // start: in between the version then in force is retired, and get_active finds none.
  lemma {:induction false} GetActiveAgrees(ops: seq<Op>, at: int)
    requires Run(ops).chain != []
    ensures var h := Run(ops); var first, last := h.chain[0], h.chain[|h.chain| - 1];
      && first < |h.rows| && last < |h.rows| && h.rows[first].from.Some? && h.rows[last].from.Some?
      && (Tiled(h.rows, at, GetActive(h.rows, at)) <==> h.rows[last].from.value <= at || at < h.rows[first].from.value)
  {
    RunKeeps(ops);
    AgreesExactly(Run(ops).rows, Run(ops).chain, at);
  }

  // The scan meets only the last version of the chain.
  lemma {:induction false} ScanFindsLast(rows: seq<Row>, chain: seq<nat>, at: int)
    requires Chained(rows, chain) && chain != []
    ensures Link(rows, chain, |chain| - 1)
    ensures var last := chain[|chain| - 1];
      GetActive(rows, at) == if rows[last].from.value <= at then Some(rows[last]) else None
  {
    assert Link(rows, chain, |chain| - 1);
    var last := chain[|chain| - 1];
    forall i | 0 <= i < |rows| ensures rows[i].status.Active? <==> i == last { OneActive(rows, chain, i); }
    GetActiveIs(rows, last, at);
  }

  lemma {:induction false} AgreesExactly(rows: seq<Row>, chain: seq<nat>, at: int)
    requires Chained(rows, chain) && chain != []
    ensures Link(rows, chain, 0) && Link(rows, chain, |chain| - 1)
    ensures Tiled(rows, at, GetActive(rows, at)) <==> rows[chain[|chain| - 1]].from.value <= at || at < rows[chain[0]].from.value
  {
    ScanFindsLast(rows, chain, at);
    StartsIncrease(rows, chain, 0, |chain| - 1);
    Tiles(rows, chain, at);
    if rows[chain[|chain| - 1]].from.value <= at {
      assert InForce(rows[chain[|chain| - 1]], at);
    }
  }

  // A draft copy changes neither the current version nor what regresses.
  lemma {:induction false} CopyIsNeutral(rows: seq<Row>, chain: seq<nat>, version: nat, from: int)
    requires Numbered(rows) && Chained(rows, chain) && 1 <= version <= |rows|
    ensures Numbered(Copied(rows, version)) && CurrentActive(Copied(rows, version)) == CurrentActive(rows)
    ensures Regresses(Copied(rows, version), from) <==> Regresses(rows, from)
  {
    CopyKeeps(rows, chain, version);
    CurrentOfChain(rows, chain);
    CurrentOfChain(Copied(rows, version), chain);
    NotRegressing(rows, chain, from);
    NotRegressing(Copied(rows, version), chain, from);
  }

  // A rollback that does not activate leaves a DRAFT row behind exactly when everything was in order but its start
  // precedes that of the current version; a rollback that loses the compare-and-set leaves nothing.
  lemma {:induction false} RollbackLeavesDraft(ops: seq<Op>, toVersion: nat, expected: nat, from: int)
    ensures var rows := Run(ops).rows; var (rows', answer) := RollbackStep(rows, toVersion, expected, from);
      && ((answer == Refused && rows' != rows) <==>
            1 <= toVersion <= |rows| && expected == CurrentActive(rows) && Regresses(rows, from))
      && (answer == Refused && rows' != rows ==> rows' == rows + [NewDraft(rows, rows[toVersion - 1].settings, Some(toVersion))])
      && (expected != CurrentActive(rows) ==> rows' == rows)
  {
    RunKeeps(ops);
    var rows := Run(ops).rows;
    RollbackForm(rows, toVersion, expected, from);
    if 1 <= toVersion <= |rows| {
      CopyIsNeutral(rows, Run(ops).chain, toVersion, from);
      FindIs(Copied(rows, toVersion), |rows|);
    }
  }

  // Runs that reach both failures

  lemma {:induction false} RunOneMore(ops: seq<Op>, op: Op)
    ensures Run(ops + [op]) == Step(Run(ops), op)
  {
    assert (ops + [op])[..|ops|] == ops;
  }

  // The last version in force, if any, starts no later.
  predicate NotBefore(rows: seq<Row>, chain: seq<nat>, from: int) {
    chain != [] ==> Link(rows, chain, |chain| - 1) && rows[chain[|chain| - 1]].from.value <= from
  }

  // An activation in order succeeds.
  lemma {:induction false} InOrderSucceeds(rows: seq<Row>, chain: seq<nat>, i: nat, from: int)
    requires Numbered(rows) && Chained(rows, chain) && i < |rows| && rows[i].status.Draft? && NotBefore(rows, chain, from)
    ensures var (rows', answer) := ActivateStep(rows, i + 1, LastVersion(chain), from);
      rows' == Successor(rows, i, from) && answer.Ok? && answer.row.version == i + 1
  {
    CurrentOfChain(rows, chain);
    NotRegressing(rows, chain, from);
    FindIs(rows, i);
  }

  lemma {:induction false} SuccessorMoves(rows: seq<Row>, chain: seq<nat>, i: nat, from: int)
    requires Numbered(rows) && Chained(rows, chain) && i < |rows| && rows[i].status.Draft?
    ensures Moves(rows, Successor(rows, i, from), chain, i, from)
  {
    CurrentOfChain(rows, chain);
    ActivatedRows(rows, chain, i, from);
  }

  lemma {:induction false} ActivationGoes(h: History, op: Op)
    requires HistoryInv(h) && op.Activate? && 1 <= op.version <= |h.rows| && h.rows[op.version - 1].status.Draft?
    requires op.expected == LastVersion(h.chain) && NotBefore(h.rows, h.chain, op.from)
    ensures Step(h, op).chain == h.chain + [op.version - 1] && Step(h, op).rows == Successor(h.rows, op.version - 1, op.from)
  {
    InOrderSucceeds(h.rows, h.chain, op.version - 1, op.from);
    var (rows, answer) := ActivateStep(h.rows, op.version, op.expected, op.from);
    ActivateIsStep(h, op, rows, answer);
  }

  lemma {:induction false} TwoDrafted(s: Settings)
    requires s.valid
    ensures var h := Run([MakeDraft(s), MakeDraft(s)]);
      h.chain == [] && |h.rows| == 2 && h.rows[0].status.Draft? && h.rows[1].status.Draft?
  {
    RunOneMore([], MakeDraft(s));
    RunOneMore([MakeDraft(s)], MakeDraft(s));
    assert [] + [MakeDraft(s)] == [MakeDraft(s)] && [MakeDraft(s)] + [MakeDraft(s)] == [MakeDraft(s), MakeDraft(s)];
  }

  // The first version in force from a on, and the second, which waits.
  predicate FirstInForce(h: History, a: int) {
    && h.chain == [0] && |h.rows| == 2
    && h.rows[0].status.Active? && h.rows[0].from == Some(a) && h.rows[1].status.Draft?
  }

  lemma {:induction false} FirstActivated(ops: seq<Op>, op: Op)
    requires Run(ops).chain == [] && |Run(ops).rows| == 2 && Run(ops).rows[0].status.Draft? && Run(ops).rows[1].status.Draft?
    requires op.Activate? && op.version == 1 && op.expected == 0
    ensures FirstInForce(Run(ops + [op]), op.from)
  {
    RunKeeps(ops);
    RunOneMore(ops, op);
    ActivationGoes(Run(ops), op);
    SuccessorMoves(Run(ops).rows, Run(ops).chain, op.version - 1, op.from);
  }

  lemma {:induction false} SecondActivated(ops: seq<Op>, op: Op, a: int)
    requires FirstInForce(Run(ops), a) && op.Activate? && op.version == 2 && op.expected == 1 && a <= op.from
    ensures var h := Run(ops + [op]);
      && h.chain == [0, 1] && |h.rows| == 2 && h.rows[0].status.Retired? && h.rows[0].from == Some(a) && h.rows[0].to == Some(op.from)
      && h.rows[1].from == Some(op.from)
  {
    RunKeeps(ops);
    assert Link(Run(ops).rows, Run(ops).chain, 0);
    RunOneMore(ops, op);
    ActivationGoes(Run(ops), op);
    SuccessorMoves(Run(ops).rows, Run(ops).chain, op.version - 1, op.from);
  }

  // Two versions, the first in force from a to b, the second from b on: asked for a time in between, get_active finds
  // none although the first version was in force.
  lemma {:induction false} InForceButNotActive(s: Settings, a: int, b: int, at: int)
    requires s.valid && a <= at < b
    ensures var h := Run([MakeDraft(s), MakeDraft(s), Activate(1, 0, a), Activate(2, 1, b)]);
      |h.rows| == 2 && h.rows[0].status.Retired? && InForce(h.rows[0], at) && GetActive(h.rows, at) == None
  {
    var drafts := [MakeDraft(s), MakeDraft(s)];
    var first, second := Activate(1, 0, a), Activate(2, 1, b);
    TwoDrafted(s);
    FirstActivated(drafts, first);
    SecondActivated(drafts + [first], second, a);
    var ops := drafts + [first] + [second];
    RunKeeps(ops);
    ScanFindsLast(Run(ops).rows, Run(ops).chain, at);
    assert ops == [MakeDraft(s), MakeDraft(s), Activate(1, 0, a), Activate(2, 1, b)];
  }

  lemma {:induction false} OneInForceFrom(s: Settings, b: int)
    requires s.valid
    ensures var h := Run([MakeDraft(s), Activate(1, 0, b)]);
      h.chain == [0] && |h.rows| == 1 && h.rows[0].settings == s && h.rows[0].from == Some(b) && h.rows[0].status.Active?
  {
    RunOneMore([], MakeDraft(s));
    assert [] + [MakeDraft(s)] == [MakeDraft(s)];
    RunKeeps([MakeDraft(s)]);
    RunOneMore([MakeDraft(s)], Activate(1, 0, b));
    assert [MakeDraft(s)] + [Activate(1, 0, b)] == [MakeDraft(s), Activate(1, 0, b)];
    ActivationGoes(Run([MakeDraft(s)]), Activate(1, 0, b));
    SuccessorMoves(Run([MakeDraft(s)]).rows, [], 0, b);
  }

  // A rollback to the only version, from before its start: refused, and its copy stays behind as a draft.
  lemma {:induction false} RefusedButDrafted(s: Settings, a: int, b: int)
    requires s.valid && a < b
    ensures var ops := [MakeDraft(s), Activate(1, 0, b)]; var rows := Run(ops).rows;
      && RollbackStep(rows, 1, 1, a).1 == Refused
      && RollbackStep(rows, 1, 1, a).0 == rows + [NewDraft(rows, s, Some(1))]
  {
    var ops := [MakeDraft(s), Activate(1, 0, b)];
    OneInForceFrom(s, b);
    RunKeeps(ops);
    CurrentOfChain(Run(ops).rows, Run(ops).chain);
    NotRegressing(Run(ops).rows, Run(ops).chain, a);
    RollbackLeavesDraft(ops, 1, 1, a);
  }

  // The store in place: the rows of every unit, replaced as a whole by each activation.
  class UnitSettingsStore {
    const units: set<string>
    var versions: map<string, seq<Row>>

    constructor (units: set<string>)
      ensures this.units == units && versions == map[]
    {
      this.units := units;
      versions := map[];
    }

    function Rows(unit: string): seq<Row>
      reads this
    {
      if unit in versions then versions[unit] else []
    }

    // What a command on one unit leaves: that unit's new rows, and all others as they were.
    twostate predicate Only(unit: string, rows: seq<Row>)
      reads this
    {
      Rows(unit) == rows && forall u :: u != unit ==> Rows(u) == old(Rows(u))
    }

    method DraftSettings(unit: string, settings: Settings) returns (r: Answer)
      modifies this
      ensures unit !in units ==> r == Refused && versions == old(versions)
      ensures unit in units ==> Only(unit, DraftStep(old(Rows(unit)), settings).0) && r == DraftStep(old(Rows(unit)), settings).1
    {
      if unit !in units || !settings.valid {
        return Refused;
      }
      var row := NewDraft(Rows(unit), settings, None);
      versions := versions[unit := Rows(unit) + [row]];
      return Ok(row);
    }

    static method GetVersion(rows: seq<Row>, version: nat) returns (i: Option<nat>)
      ensures i == Find(rows, version)
    {
      var k := 0;
      while k < |rows|
        invariant 0 <= k <= |rows| && Find(rows[..k], version) == None
      {
        assert rows[..k + 1][..k] == rows[..k];
        if rows[k].version == version {
          FindStays(rows, k + 1, version);
          return Some(k);
        }
        k := k + 1;
      }
      assert rows[..k] == rows;
      return None;
    }

    static method CurrentActiveVersion(rows: seq<Row>) returns (version: nat)
      ensures version == CurrentActive(rows)
    {
      var k := 0;
      while k < |rows|
        invariant 0 <= k <= |rows| && CurrentActive(rows[k..]) == CurrentActive(rows)
      {
        assert rows[k..][1..] == rows[k + 1..];
        if rows[k].status == Active {
          return rows[k].version;
        }
        k := k + 1;
      }
      return 0;
    }

    // The two passes of an activation: retire what is active, then put the new row in place.
    static method NewRows(rows: seq<Row>, version: nat, row: Row, from: int) returns (r: seq<Row>)
      ensures r == Replace(Retire(rows, from), version, row)
    {
      var retired: seq<Row> := [];
      var k := 0;
      while k < |rows|
        invariant 0 <= k <= |rows| && retired == Retire(rows[..k], from)
      {
        assert rows[..k + 1][..k] == rows[..k];
        retired := retired + [RetireRow(rows[k], from)];
        k := k + 1;
      }
      assert rows[..k] == rows;
      r := [];
      k := 0;
      while k < |retired|
        invariant 0 <= k <= |retired| && r == Replace(retired[..k], version, row)
      {
        assert retired[..k + 1][..k] == retired[..k];
        r := r + [if retired[k].version == version then row else retired[k]];
        k := k + 1;
      }
      assert retired[..k] == retired;
    }

    static method StartsTooEarly(rows: seq<Row>, current: nat, from: int) returns (early: bool)
      requires current == CurrentActive(rows)
      ensures early == Regresses(rows, from)
    {
      if current == 0 {
        return false;
      }
      var row := GetVersion(rows, current);
      return row.Some? && rows[row.value].from.Some? && from < rows[row.value].from.value;
    }

    method ActivateVersion(unit: string, version: nat, expected: nat, from: int) returns (r: Answer)
      modifies this
      ensures unit !in units ==> r == Refused && versions == old(versions)
      ensures unit in units ==>
        && Only(unit, ActivateStep(old(Rows(unit)), version, expected, from).0)
        && r == ActivateStep(old(Rows(unit)), version, expected, from).1
    {
      if unit !in units {
        return Refused;
      }
      var rows := Rows(unit);
      var current := CurrentActiveVersion(rows);
      if expected != current {
        return Refused;
      }
      var early := StartsTooEarly(rows, current, from);
      if early {
        return Refused;
      }
      var target := GetVersion(rows, version);
      if target.None? || rows[target.value].status != Draft {
        return Refused;
      }
      var row := Activated(rows[target.value], current, from);
      var newRows := NewRows(rows, version, row, from);
      versions := versions[unit := newRows];
      return Ok(row);
    }

    method RollbackTo(unit: string, toVersion: nat, expected: nat, from: int) returns (r: Answer)
      modifies this
      ensures unit !in units ==> r == Refused && versions == old(versions)
      ensures unit in units ==>
        && Only(unit, RollbackStep(old(Rows(unit)), toVersion, expected, from).0)
        && r == RollbackStep(old(Rows(unit)), toVersion, expected, from).1
    {
      if unit !in units {
        return Refused;
      }
      var rows := Rows(unit);
      var target := GetVersion(rows, toVersion);
      if target.None? {
        return Refused;
      }
      var current := CurrentActiveVersion(rows);
      if expected != current || !rows[target.value].settings.valid {
        return Refused;
      }
      versions := versions[unit := rows + [NewDraft(rows, rows[target.value].settings, Some(toVersion))]];
      r := ActivateVersion(unit, |rows| + 1, expected, from);
    }

    method GetActiveSettings(unit: string, at: int) returns (row: Option<Row>)
      ensures row == if unit in units then GetActive(Rows(unit), at) else None
    {
      if unit !in units {
        return None;
      }
      var rows := Rows(unit);
      var k := 0;
      while k < |rows|
        invariant 0 <= k <= |rows| && GetActive(rows[k..], at) == GetActive(rows, at)
      {
        assert rows[k..][1..] == rows[k + 1..];
        if rows[k].status == Active && InForce(rows[k], at) {
          return Some(rows[k]);
        }
        k := k + 1;
      }
      return None;
    }
  }

  lemma {:induction false} FindStays(rows: seq<Row>, n: nat, version: nat)
    requires n <= |rows| && Find(rows[..n], version).Some?
    ensures Find(rows, version) == Find(rows[..n], version)
    decreases |rows|
  {
    if n < |rows| {
      assert rows[..|rows| - 1][..n] == rows[..n];
      FindStays(rows[..|rows| - 1], n, version);
    } else {
      assert rows[..n] == rows;
    }
  }
}
