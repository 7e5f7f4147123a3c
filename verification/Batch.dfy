/** Batches of transitions, and the database that serializes them over one JSON file. */
module Batch {
  import opened Options
  import opened Json
  import opened State
  import opened Schema
  import opened Migrations
  import opened MigrationRoundTrip
  import opened Transitions
  import opened StepTheorems

  /** A batch is proposed transition by transition, each against the document the previous one left. */
  function Propose(doc: Json, ts: seq<Transition>): Option<Json>
    decreases |ts|
  {
    if ts == [] then Some(doc)
    else
      var next :- ProposeOne(ts[0], doc);
      Propose(next, ts[1..])
  }

  /** The log entry kept for a transition: what was asked and the patch that was applied. */
  datatype Wrapper = Wrapper(transition: Transition, patch: seq<Op>)

  function Replay(doc: Json, log: seq<Wrapper>): Option<Json>
    decreases |log|
  {
    if log == [] then Some(doc)
    else
      var next :- Apply(log[0].patch, doc);
      Replay(next, log[1..])
  }

  lemma {:induction false} ReplayConcat(doc: Json, a: seq<Wrapper>, b: seq<Wrapper>)
    ensures Replay(doc, a + b) == (if Replay(doc, a).Some? then Replay(Replay(doc, a).value, b) else None)
    decreases |a|
  {
    if a == [] {
      assert a + b == b;
    } else {
      assert (a + b)[1..] == a[1..] + b;
      if Apply(a[0].patch, doc).Some? {
        ReplayConcat(Apply(a[0].patch, doc).value, a[1..], b);
      }
    }
  }

  /** One batch: its result is that of proposing in order, and the log replays to it. */
  method ProposeInOrder(start: Json, ts: seq<Transition>) returns (r: Option<Json>, log: seq<Wrapper>)
    ensures r == Propose(start, ts)
    ensures r.Some? ==> |log| == |ts| && Replay(start, log) == r
    ensures r.Some? ==> forall i :: 0 <= i < |ts| ==> log[i].transition == ts[i]
  {
    hide ProposeOne;
    hide Apply;
    log := [];
    var tmp := start;
    for i := 0 to |ts|
      invariant |log| == i && Propose(tmp, ts[i..]) == Propose(start, ts)
      invariant Replay(start, log) == Some(tmp)
      invariant forall j :: 0 <= j < i ==> log[j].transition == ts[j]
    {
      ProposeHead(tmp, ts, i);
      var updated, patch := ProposeRound(ts[i], tmp);
      if updated.None? {
        return None, [];
      }
      var entry := Wrapper(ts[i], patch);
      LogStep(start, log, entry, tmp);
      tmp := updated.value;
      log := log + [entry];
    }
    return Some(tmp), log;
  }

  lemma ProposeHead(doc: Json, ts: seq<Transition>, i: nat)
    requires i < |ts|
    ensures Propose(doc, ts[i..]) ==
            (if ProposeOne(ts[i], doc).Some? then Propose(ProposeOne(ts[i], doc).value, ts[i + 1..]) else None)
  {
    assert ts[i..][0] == ts[i] && ts[i..][1..] == ts[i + 1..];
  }

  /** One round of the loop: check, make the patch, apply it. */
  method ProposeRound(t: Transition, doc: Json) returns (r: Option<Json>, patch: seq<Op>)
    ensures r == ProposeOne(t, doc)
    ensures r.Some? ==> Apply(patch, doc) == r
  {
    hide Check;
    hide Patch;
    hide ValidateState;
    if !Validate(t, doc) {
      return None, [];
    }
    var ops := Patch(t, doc);
    if ops.None? {
      return None, [];
    }
    return ApplyChecked(ops.value, doc), ops.value;
  }

  lemma LogStep(start: Json, log: seq<Wrapper>, entry: Wrapper, tmp: Json)
    requires Replay(start, log) == Some(tmp)
    ensures Replay(start, log + [entry]) == Apply(entry.patch, tmp)
  {
    ReplayConcat(start, log, [entry]);
    assert [entry][1..] == [];
  }

  /** Two batches in a row are one batch. */
  lemma {:induction false} ProposeConcat(doc: Json, a: seq<Transition>, b: seq<Transition>)
    ensures Propose(doc, a + b) == (if Propose(doc, a).Some? then Propose(Propose(doc, a).value, b) else None)
    decreases |a|
  {
    if a == [] {
      assert a + b == b;
    } else {
      assert (a + b)[1..] == a[1..] + b;
      var next := ProposeOne(a[0], doc);
      if next.Some? {
        ProposeConcat(next.value, a[1..], b);
      }
    }
  }

  lemma {:induction false} ProposeKeepsValid(doc: Json, ts: seq<Transition>)
    requires ValidateState(doc)
    ensures Propose(doc, ts).Some? ==> ValidateState(Propose(doc, ts).value)
    decreases |ts|
  {
    if ts != [] {
      var next := ProposeOne(ts[0], doc);
      if next.Some? {
        ProposeKeepsValid(next.value, ts[1..]);
      }
    }
  }

  /** Batches on records. */
  function Run(s: NodeState, ts: seq<Transition>): Option<NodeState>
    decreases |ts|
  {
    if ts == [] then Some(s)
    else if !Accepts(ts[0], s) then None
    else Run(Update(ts[0], s), ts[1..])
  }

  ghost predicate AllPlain(ts: seq<Transition>)
  {
    forall t :: t in ts ==> PlainIds(t)
  }

  /** A batch on a document the node wrote is the run on its record. */
  lemma {:induction false} WrittenRun(s: NodeState, ts: seq<Transition>)
    requires Valid(s) && AllPlain(ts)
    ensures Propose(Encode(s), ts) == if Run(s, ts).Some? then Some(Encode(Run(s, ts).value)) else None
    ensures Run(s, ts).Some? ==> Valid(Run(s, ts).value)
    decreases |ts|
  {
    if ts != [] {
      assert ts[0] in ts;
      WrittenStep(ts[0], s);
      if Accepts(ts[0], s) {
        WrittenRun(Update(ts[0], s), ts[1..]);
      }
    }
  }

  // ---------------------------------------------------------------- the empty state

  /** GetEmptyStateForVersion: the zero record taken from v0.0.0 through its diff. */
  function EmptyState(version: string): Option<NodeState>
  {
    NodeChain();
    var patch :- MigrationPatch(NODE_MIGRATIONS, ZERO, "v0.0.0", version);
    var doc :- Apply(patch, Encode(ZERO));
    Decode(doc)
  }

  ghost predicate IsEmpty(s: NodeState)
  {
    Entries(s.users) == map[] && Entries(s.apps) == map[] && Entries(s.processes) == map[] && Entries(s.rules) == map[]
  }

  lemma EmptyStateIs(b: nat)
    requires 1 <= b <= 9
    ensures EmptyState(NAMES[b]) == Some(NodeMigrated(ZERO, 0, b))
  {
    NodeMigratedIs(ZERO, 0, b);
    var next := NodeMigrated(ZERO, 0, b);
    DiffApplies(Encode(ZERO), Encode(next));
    CodecRoundTrip(next);
  }

  /** Every version with a schema has an empty state, and it validates. */
  lemma EmptyStateValid(b: nat)
    requires 1 <= b <= 8
    ensures EmptyState(NAMES[b]).Some?
    ensures Valid(EmptyState(NAMES[b]).value) && IsEmpty(EmptyState(NAMES[b]).value)
    ensures EmptyState(NAMES[b]).value ==
            NodeState("", "", "", NAMES[b], if b == 2 then "test" else "", Some(map[]), Some(map[]), Some(map[]),
                      if b >= 4 then Some(map[]) else None)
  {
    EmptyStateIs(b);
    IndexIsPlace(NAMES[b]);
    FromReset(b);
  }

  lemma FromReset(b: nat)
    requires 1 <= b <= 9
    ensures Carries(1, b, Up(Reset, ZERO), NodeMigrated(ZERO, 0, b)) && NodeMigrated(ZERO, 0, b).schemaVersion == NAMES[b]
  {
    NodeChain();
    var ms := NODE_MIGRATIONS[0..b];
    assert ms[0].step == Reset && ms[1..] == NODE_MIGRATIONS[1..b];
    UpsCarry(1, b, Up(Reset, ZERO));
  }

  function LatestEmptyState(): (s: NodeState)
    ensures Some(s) == EmptyState("v0.0.8")
    ensures Valid(s) && IsEmpty(s)
    ensures s == NodeState("", "", "", "v0.0.8", "", Some(map[]), Some(map[]), Some(map[]), Some(map[]))
  {
    EmptyStateValid(8);
    EmptyState("v0.0.8").value
  }

  // ---------------------------------------------------------------- the database

  /** fileDB: the state in memory, the file, and (for the proof) the last document written whole. */
  class FileDB {
    var state: Json
    var file: Json
    ghost var lastWritten: Json

    ghost predicate Valid()
      reads this
    {
      ValidateState(state) && state == lastWritten
    }

    constructor Create(state: Json)
      ensures this.state == state && this.file == state && this.lastWritten == state
    {
      this.state, this.file, this.lastWritten := state, state, state;
    }

    /** `writeOk` is whether os.WriteFile succeeds; when it does not, the file may hold anything. */
    method ProposeTransitions(ts: seq<Transition>, writeOk: bool, torn: Json) returns (r: Option<Json>)
      requires Valid()
      modifies this
      ensures Valid()
      ensures r == Propose(old(state), ts)
      ensures state == if r.Some? && writeOk then r.value else old(state)
      ensures file == if r.None? then old(file) else if writeOk then r.value else torn
    {
      var newState, log := ProposeInOrder(state, ts);
      if newState.None? {
        return None;
      }
      ProposeKeepsValid(state, ts);
      if writeOk {
        file := newState.value;
        lastWritten := newState.value;
        state := newState.value;
      } else {
        file := torn;
      }
      return newState;
    }

    /** FileDB.State */
    method State() returns (s: Option<NodeState>)
      requires Valid()
      ensures s == Decode(state) && s.Some?
    {
      s := Decode(state);
    }
  }

  /** NewHabitatDB: an existing file is read and checked; otherwise the initial transitions run from
      the empty state and the result is written. `err` is whether an error is returned: a failed write
      leaves the caller with neither a database nor an error. */
  method NewHabitatDB(existing: Option<Json>, initial: seq<Transition>, writeOk: bool) returns (db: FileDB?, err: bool)
    ensures db != null ==> fresh(db) && db.Valid() && db.file == db.state
    ensures existing.Some? ==> (db != null <==> ValidateState(existing.value)) && (err <==> db == null)
    ensures existing.Some? && db != null ==> db.state == existing.value
    ensures existing.None? ==>
      var r := NewState(initial);
      && (db != null <==> r.Some? && writeOk) && (db != null ==> Some(db.state) == r)
      && (err <==> r.None?)
  {
    var empty := LatestEmptyState();
    if existing.Some? {
      if !ValidateState(existing.value) {
        return null, true;
      }
      db := new FileDB.Create(existing.value);
      return db, false;
    }
    var state, log := ProposeInOrder(Encode(empty), initial);
    if state.None? {
      return null, true;
    }
    ValidEncoded(empty);
    ProposeKeepsValid(Encode(empty), initial);
    if !ValidateState(state.value) {
      return null, true;
    }
    if !writeOk {
      return null, false;
    }
    db := new FileDB.Create(state.value);
    return db, false;
  }

  /** The state of a new database: the initial batch on the latest empty state. */
  function NewState(initial: seq<Transition>): Option<Json>
  {
    Propose(Encode(LatestEmptyState()), initial)
  }

  // ---------------------------------------------------------------- histories

  datatype Call = Call(batch: seq<Transition>, writeOk: bool)

  /** The state in memory after a sequence of calls, as FileDB.ProposeTransitions leaves it. */
  function After(doc: Json, calls: seq<Call>): Json
    decreases |calls|
  {
    if calls == [] then doc
    else
      var r := Propose(doc, calls[0].batch);
      After(if r.Some? && calls[0].writeOk then r.value else doc, calls[1..])
  }

  /** The transitions of the calls that went through and were written. */
  function Effective(doc: Json, calls: seq<Call>): seq<Transition>
    decreases |calls|
  {
    if calls == [] then []
    else
      var r := Propose(doc, calls[0].batch);
      if r.Some? && calls[0].writeOk then calls[0].batch + Effective(r.value, calls[1..])
      else Effective(doc, calls[1..])
  }

  /** Whatever calls were made, the state is what one batch of the effective transitions gives, and
      it is valid: refused and unwritten batches leave no trace. */
  lemma {:induction false} HistoryIsOneBatch(doc: Json, calls: seq<Call>)
    requires ValidateState(doc)
    ensures Propose(doc, Effective(doc, calls)) == Some(After(doc, calls))
    ensures ValidateState(After(doc, calls))
    decreases |calls|
  {
    if calls != [] {
      var r := Propose(doc, calls[0].batch);
      ProposeKeepsValid(doc, calls[0].batch);
      if r.Some? && calls[0].writeOk {
        HistoryIsOneBatch(r.value, calls[1..]);
        ProposeConcat(doc, calls[0].batch, Effective(r.value, calls[1..]));
      } else {
        HistoryIsOneBatch(doc, calls[1..]);
      }
    }
  }

  /** What one more call adds to a history: its batch, if it goes through and is written, and nothing
      otherwise. */
  lemma {:induction false} LastCall(doc: Json, calls: seq<Call>, c: Call)
    ensures var before := After(doc, calls); var r := Propose(before, c.batch);
      && After(doc, calls + [c]) == (if r.Some? && c.writeOk then r.value else before)
      && Effective(doc, calls + [c]) == Effective(doc, calls) + (if r.Some? && c.writeOk then c.batch else [])
    decreases |calls|
  {
    hide Propose;
    if calls == [] {
      assert [] + [c] == [c] && [c][1..] == [];
      assert After(doc, []) == doc && Effective(doc, []) == [];
      var r := Propose(doc, c.batch);
      assert After(doc, [c]) == if r.Some? && c.writeOk then r.value else doc;
      assert c.batch + [] == c.batch;
    } else {
      var r := Propose(doc, calls[0].batch);
      assert (calls + [c])[0] == calls[0] && (calls + [c])[1..] == calls[1..] + [c];
      LastCall(if r.Some? && calls[0].writeOk then r.value else doc, calls[1..], c);
    }
  }
}
