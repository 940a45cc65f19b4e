/** Working memory: the time-ordered index of recent events beside the expiring event hashes, and
    the pruning of the index (memory/working.py:12-114).  Times are in seconds and never go back. */
module WorkingMemory {
  import opened Wrappers

  const TTL_HIGH := 900
  const TTL_CRITICAL := 1800
  const RECENT_WINDOW := 900

  /** `expires` is the last moment a hash is there; for the index as a whole it is `indexExpires`. */
  datatype Hash = Hash(critical: bool, expires: int)

  datatype State = State(index: map<string, int>, indexExpires: int, hashes: map<string, Hash>)

  datatype Op = Store(eid: string, critical: bool, at: int) | Flush(at: int)

  function Live(s: State, now: int): map<string, int> {
    if s.indexExpires < now then map[] else s.index
  }

  function Apply(s: State, op: Op): State {
    match op
    case Store(eid, critical, at) =>
      State(Live(s, at)[eid := at], at + RECENT_WINDOW + 60,
            s.hashes[eid := Hash(critical, at + if critical then TTL_CRITICAL else TTL_HIGH)])
    case Flush(at) =>
      s.(index := map eid | eid in Live(s, at) && Live(s, at)[eid] > at - RECENT_WINDOW :: Live(s, at)[eid])
  }

  function Empty(): State {
    State(map[], 0, map[])
  }

  function After(s: State, ops: seq<Op>): State {
    if ops == [] then s else Apply(After(s, ops[..|ops| - 1]), ops[|ops| - 1])
  }

  /** The index entries a read at `now` selects. */
  function Window(s: State, now: int): map<string, int> {
    map eid | eid in Live(s, now) && now - RECENT_WINDOW <= Live(s, now)[eid] <= now :: Live(s, now)[eid]
  }

  /** All that `get_recent_events` depends on, whatever its limit: the selected index entries and
      the hashes still there. */
  function Seen(s: State, now: int): (map<string, int>, map<string, Hash>) {
    (Window(s, now), map eid | eid in s.hashes && now <= s.hashes[eid].expires :: s.hashes[eid])
  }

  /** The operations happen in order, from `t` on and up to `until`. */
  ghost predicate Timely(ops: seq<Op>, t: int, until: int) {
    && (ops == [] ==> t <= until)
    && (forall i :: 0 <= i < |ops| ==> t <= ops[i].at <= until)
    && (forall i, j :: 0 <= i < j < |ops| ==> ops[i].at <= ops[j].at)
  }

  // ----- flushing is invisible --------------------------------------------------------------

  /** Nothing in the index is newer than `t`, and the index outlives each entry's window. */
  ghost predicate Inv(s: State, t: int) {
    forall eid :: eid in s.index ==> s.index[eid] <= t && s.index[eid] + RECENT_WINDOW + 60 <= s.indexExpires
  }

  /** Entries that can still be read after `t` are the same in both. */
  ghost predicate Alike(a: State, b: State, t: int) {
    && a.hashes == b.hashes
    && (forall eid :: eid in a.index && a.index[eid] > t - RECENT_WINDOW ==>
         eid in b.index && b.index[eid] == a.index[eid])
    && (forall eid :: eid in b.index && b.index[eid] > t - RECENT_WINDOW ==>
         eid in a.index && a.index[eid] == b.index[eid])
  }

  lemma ApplyKeepsInv(s: State, op: Op, t: int)
    requires Inv(s, t) && t <= op.at
    ensures Inv(Apply(s, op), op.at)
  {
  }

  lemma ApplyKeepsAlike(a: State, b: State, op: Op, t: int)
    requires Inv(a, t) && Inv(b, t) && Alike(a, b, t) && t <= op.at
    ensures Alike(Apply(a, op), Apply(b, op), op.at)
  {
  }

  lemma FlushIsAlike(s: State, at: int, t: int)
    requires Inv(s, t) && t <= at
    ensures Alike(Apply(s, Flush(at)), s, at)
  {
  }

  lemma AlikeReadsSame(a: State, b: State, t: int, now: int)
    requires Inv(a, t) && Inv(b, t) && Alike(a, b, t) && t < now
    ensures Seen(a, now) == Seen(b, now)
  {
    assert Window(a, now) == Window(b, now);
  }

  lemma {:induction false} RunKeepsInv(s: State, ops: seq<Op>, t: int, until: int)
    requires Inv(s, t) && Timely(ops, t, until)
    ensures Inv(After(s, ops), until)
  {
    if ops != [] {
      var front, op := ops[..|ops| - 1], ops[|ops| - 1];
      RunKeepsInv(s, front, t, op.at);
      ApplyKeepsInv(After(s, front), op, op.at);
    }
  }

  lemma {:induction false} RunKeepsAlike(a: State, b: State, ops: seq<Op>, t: int, until: int)
    requires Inv(a, t) && Inv(b, t) && Alike(a, b, t) && Timely(ops, t, until)
    ensures Alike(After(a, ops), After(b, ops), until)
  {
    if ops != [] {
      var front, op := ops[..|ops| - 1], ops[|ops| - 1];
      RunKeepsAlike(a, b, front, t, op.at);
      RunKeepsInv(a, front, t, op.at);
      RunKeepsInv(b, front, t, op.at);
      ApplyKeepsAlike(After(a, front), After(b, front), op, op.at);
    }
  }

  lemma {:induction false} AfterInTurns(s: State, a: seq<Op>, b: seq<Op>)
    ensures After(s, a + b) == After(After(s, a), b)
  {
    if b == [] {
      assert a + b == a;
    } else {
      AfterInTurns(s, a, b[..|b| - 1]);
      assert (a + b)[..|a + b| - 1] == a + b[..|b| - 1];
    }
  }

  /** A flush anywhere in a history is invisible to every read strictly later than the history:
      with and without it, the read selects the same entries and finds the same hashes. */
  lemma FlushIsInvisible(before: seq<Op>, at: int, after: seq<Op>, t: int, until: int, now: int)
    requires Timely(before, t, at) && Timely(after, at, until) && until < now
    ensures Seen(After(Empty(), before + [Flush(at)] + after), now) == Seen(After(Empty(), before + after), now)
  {
    var s := After(Empty(), before);
    assert Inv(Empty(), t);
    RunKeepsInv(Empty(), before, t, at);
    FlushIsAlike(s, at, at);
    ApplyKeepsInv(s, Flush(at), at);
    var f := Apply(s, Flush(at));
    RunKeepsAlike(f, s, after, at, until);
    RunKeepsInv(f, after, at, until);
    RunKeepsInv(s, after, at, until);
    AlikeReadsSame(After(f, after), After(s, after), until, now);
    AfterInTurns(Empty(), before + [Flush(at)], after);
    AfterInTurns(Empty(), before, after);
    assert (before + [Flush(at)])[..|before|] == before;
  }

  /** At the very moment of the flush it is visible: a critical event stored exactly one window
      earlier is still selected without it. */
  lemma FlushShowsAtOnce(eid: string)
    ensures var s := Apply(Empty(), Store(eid, true, 0));
      eid in Window(s, RECENT_WINDOW) && eid !in Window(Apply(s, Flush(RECENT_WINDOW)), RECENT_WINDOW)
  {
  }

  // ----- what a read returns ----------------------------------------------------------------

  function LastStore(ops: seq<Op>, eid: string): Option<Op> {
    if ops == [] then None
    else if ops[|ops| - 1].Store? && ops[|ops| - 1].eid == eid then Some(ops[|ops| - 1])
    else LastStore(ops[..|ops| - 1], eid)
  }

  ghost predicate Tracks(s: State, last: Option<Op>, eid: string, t: int) {
    && (last.Some? ==> last.value.Store? && StoredBy(s, last.value, eid, t))
    && (eid in s.index ==> last.Some? && s.index[eid] == last.value.at)
  }

  ghost predicate StoredBy(s: State, last: Op, eid: string, t: int)
    requires last.Store?
  {
    && last.at <= t && (last.at > t - RECENT_WINDOW ==> eid in s.index)
    && eid in s.hashes
    && s.hashes[eid] == Hash(last.critical, last.at + if last.critical then TTL_CRITICAL else TTL_HIGH)
  }

  lemma {:induction false} RunTracks(ops: seq<Op>, eid: string, t: int, until: int)
    requires Timely(ops, t, until)
    ensures Tracks(After(Empty(), ops), LastStore(ops, eid), eid, until)
  {
    if ops != [] {
      var front, op := ops[..|ops| - 1], ops[|ops| - 1];
      RunTracks(front, eid, t, op.at);
      assert Inv(Empty(), t);
      RunKeepsInv(Empty(), front, t, op.at);
    }
  }

  predicate Recent(ops: seq<Op>, eid: string, now: int) {
    LastStore(ops, eid).Some? && now - LastStore(ops, eid).value.at <= 900
  }

  lemma WindowIsRecent(ops: seq<Op>, eid: string, t: int, until: int, now: int)
    requires Timely(ops, t, until) && until < now
    ensures var (window, hashes) := Seen(After(Empty(), ops), now);
      && (eid in window <==> Recent(ops, eid, now))
           && (eid in window ==> eid in hashes && window[eid] == LastStore(ops, eid).value.at)
  {
    RunTracks(ops, eid, t, until);
    assert Inv(Empty(), t);
    RunKeepsInv(Empty(), ops, t, until);
  }

  /** The event itself can be found for half an hour after it was last stored as critical, else for a
      quarter of an hour, whatever has been flushed. */
  lemma FoundFor(ops: seq<Op>, eid: string, t: int, until: int, now: int)
    requires Timely(ops, t, until) && LastStore(ops, eid).Some?
    ensures var (_, hashes) := Seen(After(Empty(), ops), now);
      var last := LastStore(ops, eid).value;
      last.Store? && (eid in hashes <==> now - last.at <= if last.critical then 1800 else 900)
  {
    RunTracks(ops, eid, t, until);
  }

  /** Entries a read lists before e: newer ones, and of the same time those with a greater id.
      `less` is the store's order of ids. */
  function Above(window: map<string, int>, less: (string, string) -> bool, e: string): set<string>
    requires e in window
  {
    set k | k in window && (window[k] > window[e] || (window[k] == window[e] && less(e, k)))
  }

  /** `zrevrangebyscore` with LIMIT 0 `limit`; a negative limit is none. */
  predicate Selected(window: map<string, int>, less: (string, string) -> bool, limit: int, e: string) {
    e in window && (limit < 0 || |Above(window, less, e)| < limit)
  }

  function Stored(ops: seq<Op>): set<string> {
    if ops == [] then {}
    else Stored(ops[..|ops| - 1]) + if ops[|ops| - 1].Store? then {ops[|ops| - 1].eid} else {}
  }

  lemma {:induction false} StoredIff(ops: seq<Op>, eid: string)
    ensures eid in Stored(ops) <==> LastStore(ops, eid).Some?
    ensures LastStore(ops, eid).Some? ==> LastStore(ops, eid).value.Store?
  {
    if ops != [] { StoredIff(ops[..|ops| - 1], eid); }
  }

  /** The recent events that were last stored after e, or at the same time with a greater id. */
  function StoredAfter(ops: seq<Op>, less: (string, string) -> bool, now: int, e: string): set<string>
    requires LastStore(ops, e).Some?
  {
    set k | k in Stored(ops) && Recent(ops, k, now)
      && (LastStore(ops, k).value.at > LastStore(ops, e).value.at
           || (LastStore(ops, k).value.at == LastStore(ops, e).value.at && less(e, k)))
  }

  /** A read with a limit returns exactly the events last stored at most 15 minutes before that have
      fewer than `limit` later ones among these; a negative limit returns all. */
  lemma LimitedReads(ops: seq<Op>, less: (string, string) -> bool, limit: int, e: string, t: int, until: int, now: int)
    requires Timely(ops, t, until) && until < now
    ensures var (window, hashes) := Seen(After(Empty(), ops), now);
      (Selected(window, less, limit, e) && e in hashes)
      <==> Recent(ops, e, now) && (limit < 0 || |StoredAfter(ops, less, now, e)| < limit)
  {
    var window := Window(After(Empty(), ops), now);
    WindowIsRecent(ops, e, t, until, now);
    if e in window {
      forall k ensures k in Above(window, less, e) <==> k in StoredAfter(ops, less, now, e) {
        WindowIsRecent(ops, k, t, until, now);
        StoredIff(ops, k);
      }
      assert Above(window, less, e) == StoredAfter(ops, less, now, e);
    }
  }

  // ----- the object ---------------------------------------------------------------------------

  class Memory {
    var index: map<string, int>
    var indexExpires: int
    var hashes: map<string, Hash>

    function View(): State
      reads this
    {
      State(index, indexExpires, hashes)
    }

    constructor ()
      ensures View() == Empty()
    {
      index, indexExpires, hashes := map[], 0, map[];
    }

    method Store(eid: string, severity: string, now: int)
      modifies this
      ensures View() == Apply(old(View()), Op.Store(eid, severity == "critical", now))
      ensures eid in index && index[eid] == now && indexExpires == now + 960
      ensures eid in hashes && hashes[eid].expires == now + if severity == "critical" then 1800 else 900
    {
      var ttl := if severity == "critical" then TTL_CRITICAL else TTL_HIGH;
      hashes := hashes[eid := Hash(severity == "critical", now + ttl)];
      if indexExpires < now { index := map[]; }
      index := index[eid := now];
      indexExpires := now + RECENT_WINDOW + 60;
    }

    method FlushExpired(now: int) returns (removed: nat)
      modifies this`index
      ensures View() == Apply(old(View()), Flush(now))
      ensures removed == |Live(old(View()), now)| - |index|
    {
      if indexExpires < now { index := map[]; }
      var kept := map eid | eid in index && index[eid] > now - RECENT_WINDOW :: index[eid];
      SmallerMap(kept, index);
      removed := |index| - |kept|;
      index := kept;
    }
  }

  lemma SmallerMap(a: map<string, int>, b: map<string, int>)
    requires a.Keys <= b.Keys
    ensures |a| <= |b|
  {
    SmallerSet(a.Keys, b.Keys);
  }

  lemma {:induction false} SmallerSet(a: set<string>, b: set<string>)
    requires a <= b
    ensures |a| <= |b|
  {
    if a != {} {
      var x :| x in a;
      SmallerSet(a - {x}, b - {x});
    }
  }
}
