/** The project part of incidentops/retrieval/cache.py: payloads are stored under the project's
    generation, and an invalidation only moves the generation on.

    Every get and set is two server commands, one for the generation and one for the payload, and
    commands of different callers interleave. The generation counter is durable and digests do not
    collide; payloads may be evicted at any time. */
module ProjectCache {
  import opened Prelude

  type Payload = string

  datatype Name = Name(space: string, project: nat, value: string)

  // The key of a payload: its name and the generation read for it.
  datatype Key = Key(name: Name, generation: nat)

  // A stored payload remembers which set stored it.
  datatype Stored = Stored(op: nat, payload: Payload)

  datatype Server = Server(generations: map<nat, nat>, entries: map<Key, Stored>)

  // client.get(generation key) or "0"
  function Generation(generations: map<nat, nat>, project: nat): nat {
    if project in generations then generations[project] else 0
  }

  function KeyOf(generations: map<nat, nat>, n: Name): Key {
    Key(n, Generation(generations, n.project))
  }

  function Incremented(generations: map<nat, nat>, project: nat): map<nat, nat> {
    generations[project := Generation(generations, project) + 1]
  }

  // What an undisturbed get returns.
  function Lookup(s: Server, n: Name): Option<Payload> {
    var k := KeyOf(s.generations, n);
    if k in s.entries then Some(s.entries[k].payload) else None
  }

  class Cache {
    var generations: map<nat, nat>
    var entries: map<Key, Stored>

    function Snapshot(): Server
      reads this
    {
      Server(generations, entries)
    }

    constructor ()
      ensures Snapshot() == Server(map[], map[])
    {
      generations, entries := map[], map[];
    }

    /** get_project_json, undisturbed: a failure reads as a miss. */
    method GetProjectJson(n: Name, available: bool) returns (r: Option<Payload>)
      ensures r == if available then Lookup(Snapshot(), n) else None
    {
      if !available {
        return None;
      }
      var k := KeyOf(generations, n);
      if k !in entries {
        return None;
      }
      r := Some(entries[k].payload);
    }

    /** set_project_json, undisturbed: it changes what is looked up under its own name only. */
    method SetProjectJson(n: Name, op: nat, payload: Payload, available: bool)
      modifies this
      ensures generations == old(generations)
      ensures forall m :: Lookup(Snapshot(), m)
                          == if available && m == n then Some(payload) else Lookup(old(Snapshot()), m)
    {
      if available {
        entries := entries[KeyOf(generations, n) := Stored(op, payload)];
      }
    }

    /** invalidate_project: with no key of a later generation, nothing of the project is found any
        more, and other projects are not affected. */
    method InvalidateProject(project: nat, available: bool)
      requires forall k | k in entries :: k.generation <= Generation(generations, k.name.project)
      modifies this
      ensures entries == old(entries)
      ensures forall m :: Lookup(Snapshot(), m)
                          == if available && m.project == project then None else Lookup(old(Snapshot()), m)
      ensures forall k | k in entries :: k.generation <= Generation(generations, k.name.project)
    {
      if available {
        generations := Incremented(generations, project);
      }
    }
  }

  // ---- interleavings ----

  // Operations are numbered in the order in which they read their generation.
  datatype Op = Get(key: Key) | Set(key: Key, payload: Payload)

  datatype State = State(server: Server, begun: seq<Op>, open: set<nat>, results: map<nat, Option<Stored>>)

  const INITIAL := State(Server(map[], map[]), [], {}, map[])

  datatype Action =
    | BeginGet(name: Name)
    | BeginSet(name: Name, payload: Payload)
    | FinishGet(op: nat)
    | FinishSet(op: nat)
    | Fail(op: nat)
    | Invalidate(project: nat)
    | Evict(key: Key)

  predicate Enabled(s: State, a: Action) {
    match a
    case FinishGet(op) => op in s.open && op < |s.begun| && s.begun[op].Get?
    case FinishSet(op) => op in s.open && op < |s.begun| && s.begun[op].Set?
    case Fail(op) => op in s.open
    case _ => true
  }

  function Found(s: State, k: Key): Option<Stored> {
    if k in s.server.entries then Some(s.server.entries[k]) else None
  }

  function Begin(s: State, op: Op): State {
    s.(begun := s.begun + [op], open := s.open + {|s.begun|})
  }

  function Next(s: State, a: Action): State
    requires Enabled(s, a)
  {
    match a
    case BeginGet(n) => Begin(s, Get(KeyOf(s.server.generations, n)))
    case BeginSet(n, payload) => Begin(s, Set(KeyOf(s.server.generations, n), payload))
    case FinishGet(op) => s.(open := s.open - {op}, results := s.results[op := Found(s, s.begun[op].key)])
    case FinishSet(op) =>
      var stored := Stored(op, s.begun[op].payload);
      s.(open := s.open - {op}, server := s.server.(entries := s.server.entries[s.begun[op].key := stored]))
    case Fail(op) => s.(open := s.open - {op})
    case Invalidate(p) => s.(server := s.server.(generations := Incremented(s.server.generations, p)))
    case Evict(k) => s.(server := s.server.(entries := s.server.entries - {k}))
  }

  function Run(s: State, acts: seq<Action>): Option<State>
    decreases |acts|
  {
    if acts == [] then Some(s)
    else if !Enabled(s, acts[0]) then None
    else Run(Next(s, acts[0]), acts[1..])
  }

  // A payload found under a key was stored there by a set that had read that very key.
  predicate StoredBy(s: State, k: Key, stored: Stored) {
    stored.op < |s.begun| && s.begun[stored.op] == Set(k, stored.payload)
  }

  ghost predicate Inv(s: State) {
    && (forall op | 0 <= op < |s.begun| ::
          s.begun[op].key.generation <= Generation(s.server.generations, s.begun[op].key.name.project))
    && (forall k | k in s.server.entries :: StoredBy(s, k, s.server.entries[k]))
    && (forall op | op in s.results ::
          && op < |s.begun| && s.begun[op].Get?
          && (s.results[op].Some? ==> StoredBy(s, s.begun[op].key, s.results[op].value)))
  }

  lemma StepKeepsInv(s: State, a: Action)
    requires Inv(s) && Enabled(s, a)
    ensures Inv(Next(s, a))
  {
  }

  // Since an invalidation after which `first` operations had begun and p was at generation g:
  // later operations read g or more, and earlier ones had read less.
  ghost predicate Separated(s: State, p: nat, first: nat, g: nat) {
    && first <= |s.begun| && Generation(s.server.generations, p) >= g
    && (forall op | 0 <= op < |s.begun| && s.begun[op].key.name.project == p ::
        op < first <==> s.begun[op].key.generation < g)
  }

  lemma StepKeepsSeparated(s: State, a: Action, p: nat, first: nat, g: nat)
    requires Enabled(s, a) && Separated(s, p, first, g)
    ensures Separated(Next(s, a), p, first, g)
  {
  }

  lemma {:induction false} RunKeepsAll(s: State, acts: seq<Action>, p: nat, first: nat, g: nat)
    requires Inv(s) && Run(s, acts).Some?
    ensures Inv(Run(s, acts).value)
    ensures Separated(s, p, first, g) ==> Separated(Run(s, acts).value, p, first, g)
    decreases |acts|
  {
    if acts != [] {
      StepKeepsInv(s, acts[0]);
      if Separated(s, p, first, g) {
        StepKeepsSeparated(s, acts[0], p, first, g);
      }
      RunKeepsAll(Next(s, acts[0]), acts[1..], p, first, g);
    }
  }

  /** A payload is only ever returned under the namespace, project and value it was stored under,
      by the set it came from. */
  lemma ReturnedPayloadsWereStoredForTheSameName(acts: seq<Action>, op: nat)
    requires Run(INITIAL, acts).Some?
    ensures var s := Run(INITIAL, acts).value;
            op in s.results && s.results[op].Some? ==>
              var r := s.results[op].value;
              op < |s.begun| && r.op < |s.begun| && s.begun[r.op] == Set(s.begun[op].key, r.payload)
  {
    RunKeepsAll(INITIAL, acts, 0, 0, 0);
  }

  /** In every interleaving, a payload returned for an invalidated project is an old one, whose set had
      read its generation before the invalidation, if and only if the get had read its own before it.
      So a get that begins after an invalidation never returns a stale payload. */
  lemma StalePayloadsAreNotReturned(before: seq<Action>, p: nat, after: seq<Action>, op: nat)
    requires Run(INITIAL, before).Some?
    requires Run(Next(Run(INITIAL, before).value, Invalidate(p)), after).Some?
    ensures var first := |Run(INITIAL, before).value.begun|;
            var s := Run(Next(Run(INITIAL, before).value, Invalidate(p)), after).value;
            op in s.results && s.results[op].Some? && op < |s.begun| && s.begun[op].key.name.project == p
            ==> (s.results[op].value.op < first <==> op < first)
  {
    RunKeepsAll(INITIAL, before, 0, 0, 0);
    var s := Run(INITIAL, before).value;
    StepKeepsInv(s, Invalidate(p));
    RunKeepsAll(Next(s, Invalidate(p)), after, p, |s.begun|, Generation(s.server.generations, p) + 1);
  }

  /** The get has to begin after the invalidation: one that had already read its generation still
      returns the old payload. */
  lemma AnOverlappingGetReturnsTheOldPayload(n: Name, payload: Payload)
    ensures var acts := [BeginSet(n, payload), FinishSet(0), BeginGet(n), Invalidate(n.project), FinishGet(1)];
            var r := Run(INITIAL, acts);
            r.Some? && 1 in r.value.results && r.value.results[1] == Some(Stored(0, payload))
  {
    var a := [BeginSet(n, payload), FinishSet(0), BeginGet(n), Invalidate(n.project), FinishGet(1)];
    var s1 := Next(INITIAL, a[0]);
    var s2 := Next(s1, a[1]);
    var s3 := Next(s2, a[2]);
    var s4 := Next(s3, a[3]);
    assert s4.begun == [Set(Key(n, 0), payload), Get(Key(n, 0))];
    var s5 := Next(s4, a[4]);
    assert Run(s5, a[5..]) == Some(s5);
    assert a[4..][1..] == a[5..] && a[3..][1..] == a[4..] && a[2..][1..] == a[3..] && a[1..][1..] == a[2..];
    assert Run(s4, a[4..]) == Some(s5);
    assert Run(s3, a[3..]) == Some(s5);
    assert Run(s2, a[2..]) == Some(s5);
    assert Run(s1, a[1..]) == Some(s5);
  }
}
