/**
 * The in-process task registry: duplicate events for a key are coalesced, and a computed result is kept until it is
 * published. Each locked section is one step; processes interleave between them.
 */
module TaskRegistry {
  import opened Options
  import opened Events

  type Key = string
  type Value = nat

  /** `id` stands for the identity of the entry object. */
  datatype Entry = Entry(id: nat, processing: bool, result: Option<Value>, complete: bool, lastUsed: Time)

  datatype Phase = Executing | Executed(value: Value) | Publishing(value: Value) | Published(value: Value) | Over

  datatype Process = Process(key: Key, id: nat, phase: Phase)

  datatype Registry = Registry(
    entries: map<Key, Entry>,
    processes: map<nat, Process>,
    nextId: nat,
    nextProcess: nat,
    // History: successful executions and publications, by entry.
    successes: map<nat, nat>,
    published: seq<(nat, Value)>)

  datatype Config = Config(capacity: nat, ttl: nat)

  predicate Finished(e: Entry)
  {
    e.complete && !e.processing
  }

  function Prune(entries: map<Key, Entry>, now: Time, ttl: nat): map<Key, Entry>
  {
    map k | k in entries && !(Finished(entries[k]) && entries[k].lastUsed + ttl <= now) :: entries[k]
  }

  /** Eviction under pressure; which finished entry goes is left open here. */
  function Evict(entries: map<Key, Entry>, capacity: nat, victim: Option<Key>): map<Key, Entry>
  {
    if |entries| >= capacity && victim.Some? && victim.value in entries && Finished(entries[victim.value])
    then entries - {victim.value}
    else entries
  }

  /** What eviction is for: the finished entry used longest ago goes, and nothing goes only if nothing is finished. */
  ghost predicate EvictsOldest(entries: map<Key, Entry>, victim: Option<Key>)
  {
    match victim
    case None => forall k :: k in entries ==> !Finished(entries[k])
    case Some(v) =>
      && v in entries && Finished(entries[v])
      && forall k :: k in entries && Finished(entries[k]) ==> entries[v].lastUsed <= entries[k].lastUsed
  }

  predicate EmptyKeyIsOlder(entries: map<Key, Entry>, k: Key)
    requires k in entries
  {
    "" in entries && Finished(entries[""]) && entries[""].lastUsed < entries[k].lastUsed
  }

  /** The entry under the empty key is finished and was used before every other finished entry. */
  ghost predicate EmptyKeyIsOldest(entries: map<Key, Entry>)
  {
    && "" in entries && Finished(entries[""])
    && forall k :: k in entries && k != "" && Finished(entries[k]) ==> EmptyKeyIsOlder(entries, k)
  }

  datatype ClaimOutcome = Claimed(id: nat, cached: Option<Value>) | AlreadyDone | Wait | Full

  function ClaimTx(cfg: Config, s: Registry, key: Key, victim: Option<Key>, now: Time): (Registry, ClaimOutcome)
  {
    var kept := Prune(s.entries, now, cfg.ttl);
    if key in kept then
      var e := kept[key].(lastUsed := now);
      if e.complete then (s.(entries := kept[key := e]), AlreadyDone)
      else if e.processing then (s.(entries := kept[key := e]), Wait)
      else
        var phase := if e.result.Some? then Publishing(e.result.value) else Executing;
        (s.(entries := kept[key := e.(processing := true)],
            processes := s.processes[s.nextProcess := Process(key, e.id, phase)], nextProcess := s.nextProcess + 1),
         Claimed(e.id, e.result))
    else
      var left := Evict(kept, cfg.capacity, victim);
      if |left| >= cfg.capacity then (s.(entries := left), Full)
      else
        (s.(entries := left[key := Entry(s.nextId, true, None, false, now)], nextId := s.nextId + 1,
            processes := s.processes[s.nextProcess := Process(key, s.nextId, Executing)],
            nextProcess := s.nextProcess + 1),
         Claimed(s.nextId, None))
  }

  /** The pointer comparison that guards every later section. */
  predicate Same(entries: map<Key, Entry>, key: Key, id: nat)
  {
    key in entries && entries[key].id == id
  }

  function Move(s: Registry, p: nat, phase: Phase): Registry
    requires p in s.processes
  {
    s.(processes := s.processes[p := s.processes[p].(phase := phase)])
  }

  function Successes(s: Registry, id: nat): nat
  {
    if id in s.successes then s.successes[id] else 0
  }

  function Remember(entries: map<Key, Entry>, key: Key, id: nat, value: Value): map<Key, Entry>
  {
    if Same(entries, key, id) then entries[key := entries[key].(result := Some(value))] else entries
  }

  function FinishFailure(entries: map<Key, Entry>, key: Key, id: nat): map<Key, Entry>
  {
    if Same(entries, key, id) then entries - {key} else entries
  }

  function FinishPublish(entries: map<Key, Entry>, key: Key, id: nat, complete: bool, now: Time): map<Key, Entry>
  {
    if Same(entries, key, id)
    then entries[key := entries[key].(processing := false, complete := complete, lastUsed := now)]
    else entries
  }

  datatype Step =
    | Claim(key: Key, victim: Option<Key>, now: Time)
    | ExecuteSucceeds(p: nat, value: Value)
    | ExecuteFails(p: nat)
    | RememberResult(p: nat)
    | Publish(p: nat)
    | Finish(p: nat, complete: bool, now: Time)

  function Apply(cfg: Config, s: Registry, step: Step): Registry
  {
    match step
    case Claim(key, victim, now) => ClaimTx(cfg, s, key, victim, now).0
    case ExecuteSucceeds(p, value) =>
      if p in s.processes && s.processes[p].phase == Executing then
        Move(s, p, Executed(value)).(successes := s.successes[s.processes[p].id := Successes(s, s.processes[p].id) + 1])
      else s
    case ExecuteFails(p) =>
      if p in s.processes && s.processes[p].phase == Executing then
        Move(s, p, Over).(entries := FinishFailure(s.entries, s.processes[p].key, s.processes[p].id))
      else s
    case RememberResult(p) =>
      if p in s.processes && s.processes[p].phase.Executed? then
        var q := s.processes[p];
        Move(s, p, Publishing(q.phase.value)).(entries := Remember(s.entries, q.key, q.id, q.phase.value))
      else s
    case Publish(p) =>
      if p in s.processes && s.processes[p].phase.Publishing? then
        var q := s.processes[p];
        Move(s, p, Published(q.phase.value)).(published := s.published + [(q.id, q.phase.value)])
      else s
    case Finish(p, complete, now) =>
      if p in s.processes && s.processes[p].phase.Published? then
        Move(s, p, Over).(entries := FinishPublish(s.entries, s.processes[p].key, s.processes[p].id, complete, now))
      else s
  }

  function Run(cfg: Config, s: Registry, steps: seq<Step>): Registry
    decreases |steps|
  {
    if steps == [] then s else Run(cfg, Apply(cfg, s, steps[0]), steps[1..])
  }

  function Start(): Registry
  {
    Registry(map[], map[], 0, 0, map[], [])
  }

  // ------------------------------------------------------------------- invariant

  predicate Active(p: Process)
  {
    p.phase != Over
  }

  /** An active process holds the lock of its entry, and its phase says what is known of the result. */
  predicate ProcessOk(s: Registry, p: nat)
    requires p in s.processes
  {
    var q := s.processes[p];
    && p < s.nextProcess && q.id < s.nextId
    && (Active(q) ==>
          && Same(s.entries, q.key, q.id) && s.entries[q.key].processing && !s.entries[q.key].complete
          && match q.phase
             case Executing => s.entries[q.key].result == None && Successes(s, q.id) == 0
             case Executed(v) => s.entries[q.key].result == None && Successes(s, q.id) == 1
             case Publishing(v) => s.entries[q.key].result == Some(v)
             case Published(v) => s.entries[q.key].result == Some(v)
             case Over => true)
  }

  predicate EntryOk(s: Registry, k: Key)
    requires k in s.entries
  {
    var e := s.entries[k];
    && e.id < s.nextId
    && (e.complete ==> !e.processing)
    && (!e.processing ==> e.result.Some?)
    && (e.result.Some? ==> Successes(s, e.id) == 1)
  }

  /** One publication agrees with the entry it came from. */
  predicate PublicationOk(s: Registry, i: nat)
    requires i < |s.published|
  {
    && s.published[i].0 < s.nextId
    && forall k :: k in s.entries && s.entries[k].id == s.published[i].0 ==>
         s.entries[k].result == Some(s.published[i].1)
  }

  ghost predicate ProcessesOk(s: Registry)
  {
    && (forall p :: p in s.processes ==> ProcessOk(s, p))
    && (forall p, q ::
          p in s.processes && q in s.processes && p != q && Active(s.processes[p]) && Active(s.processes[q]) ==>
            s.processes[p].id != s.processes[q].id)
  }

  ghost predicate EntriesOk(s: Registry)
  {
    && (forall k :: k in s.entries ==> EntryOk(s, k))
    && (forall k, l :: k in s.entries && l in s.entries && k != l ==> s.entries[k].id != s.entries[l].id)
  }

  ghost predicate HistoryOk(s: Registry)
  {
    && (forall id :: id in s.successes ==> id < s.nextId && s.successes[id] <= 1)
    && (forall i :: 0 <= i < |s.published| ==> PublicationOk(s, i))
    && (forall i, j :: 0 <= i < |s.published| && 0 <= j < |s.published| && s.published[i].0 == s.published[j].0 ==>
          s.published[i].1 == s.published[j].1)
  }

  ghost predicate RegistryInv(cfg: Config, s: Registry)
  {
    |s.entries| <= cfg.capacity && ProcessesOk(s) && EntriesOk(s) && HistoryOk(s)
  }

  // ------------------------------------------------------------------------ steps

  /** Only finished entries are dropped; nobody is working on them. */
  predicate Shrinks(before: map<Key, Entry>, after: map<Key, Entry>)
  {
    && (forall k :: k in after ==> k in before && after[k] == before[k])
    && (forall k :: k in before && !Finished(before[k]) ==> k in after)
  }

  lemma SmallerMap<K, V>(a: map<K, V>, b: map<K, V>)
    requires a.Keys <= b.Keys
    ensures |a| <= |b|
  {
    assert b.Keys == a.Keys + (b.Keys - a.Keys);
  }

  lemma ShrinkKeepsInv(cfg: Config, s: Registry, entries: map<Key, Entry>, s': Registry)
    requires RegistryInv(cfg, s) && Shrinks(s.entries, entries) && s' == s.(entries := entries)
    ensures RegistryInv(cfg, s')
  {
    SmallerMap(entries, s.entries);
    forall p | p in s'.processes ensures ProcessOk(s', p) { assert ProcessOk(s, p); }
    forall k | k in s'.entries ensures EntryOk(s', k) { assert EntryOk(s, k); }
    forall i | 0 <= i < |s'.published| ensures PublicationOk(s', i) { assert PublicationOk(s, i); }
  }

  lemma PruneShrinks(entries: map<Key, Entry>, now: Time, ttl: nat, capacity: nat, victim: Option<Key>)
    ensures Shrinks(entries, Prune(entries, now, ttl))
    ensures Shrinks(entries, Evict(Prune(entries, now, ttl), capacity, victim))
  {
  }

  /** Touching an entry, or taking its lock when it is free. */
  lemma TouchKeepsInv(cfg: Config, s: Registry, key: Key, now: Time, s': Registry)
    requires RegistryInv(cfg, s) && key in s.entries
    requires s' == s.(entries := s.entries[key := s.entries[key].(lastUsed := now)])
    ensures RegistryInv(cfg, s')
  {
    assert s'.entries.Keys == s.entries.Keys;
    forall p | p in s'.processes ensures ProcessOk(s', p) { assert ProcessOk(s, p); }
    forall k | k in s'.entries ensures EntryOk(s', k) { assert EntryOk(s, k); }
    forall i | 0 <= i < |s'.published| ensures PublicationOk(s', i) { assert PublicationOk(s, i); }
  }

  /** A process takes the free lock of an entry whose result is known. */
  predicate Retakes(s: Registry, key: Key, s': Registry)
  {
    && key in s.entries && !s.entries[key].processing && !s.entries[key].complete && s.entries[key].result.Some?
    && s' == s.(entries := s.entries[key := s.entries[key].(processing := true)],
                processes := s.processes[s.nextProcess :=
                  Process(key, s.entries[key].id, Publishing(s.entries[key].result.value))],
                nextProcess := s.nextProcess + 1)
  }

  lemma RetakeProcesses(s: Registry, key: Key, s': Registry)
    requires ProcessesOk(s) && EntriesOk(s) && Retakes(s, key, s')
    ensures ProcessesOk(s')
  {
    assert EntryOk(s, key);
    forall p | p in s'.processes ensures ProcessOk(s', p) {
      if p != s.nextProcess { assert ProcessOk(s, p); }
    }
    forall p | p in s.processes && Active(s.processes[p])
      ensures p != s.nextProcess && s.processes[p].id != s.entries[key].id
    {
      assert ProcessOk(s, p);
    }
  }

  lemma RetakeKeepsInv(cfg: Config, s: Registry, key: Key, s': Registry)
    requires RegistryInv(cfg, s) && Retakes(s, key, s')
    ensures RegistryInv(cfg, s')
  {
    assert s'.entries.Keys == s.entries.Keys;
    RetakeProcesses(s, key, s');
    forall k | k in s'.entries ensures EntryOk(s', k) { assert EntryOk(s, k); }
    forall i | 0 <= i < |s'.published| ensures PublicationOk(s', i) { assert PublicationOk(s, i); }
  }

  predicate Inserts(s: Registry, key: Key, now: Time, s': Registry)
  {
    s' == s.(entries := s.entries[key := Entry(s.nextId, true, None, false, now)], nextId := s.nextId + 1,
             processes := s.processes[s.nextProcess := Process(key, s.nextId, Executing)],
             nextProcess := s.nextProcess + 1)
  }

  lemma InsertProcesses(cfg: Config, s: Registry, key: Key, now: Time, s': Registry)
    requires RegistryInv(cfg, s) && key !in s.entries && Inserts(s, key, now, s')
    ensures ProcessesOk(s')
  {
    assert s.nextId !in s.successes;
    forall p | p in s'.processes ensures ProcessOk(s', p) {
      if p != s.nextProcess { assert ProcessOk(s, p); }
    }
    forall p | p in s.processes && Active(s.processes[p]) ensures p != s.nextProcess && s.processes[p].id != s.nextId {
      assert ProcessOk(s, p);
    }
  }

  lemma InsertEntries(cfg: Config, s: Registry, key: Key, now: Time, s': Registry)
    requires RegistryInv(cfg, s) && key !in s.entries && Inserts(s, key, now, s')
    ensures EntriesOk(s')
  {
  }

  lemma OneMoreEntry(entries: map<Key, Entry>, key: Key, e: Entry)
    ensures |entries[key := e]| <= |entries| + 1
  {
    assert entries[key := e].Keys == entries.Keys + {key};
  }

  lemma InsertKeepsInv(cfg: Config, s: Registry, key: Key, now: Time, s': Registry)
    requires RegistryInv(cfg, s) && key !in s.entries && |s.entries| < cfg.capacity && Inserts(s, key, now, s')
    ensures RegistryInv(cfg, s')
  {
    InsertProcesses(cfg, s, key, now, s');
    InsertEntries(cfg, s, key, now, s');
    InsertHistory(cfg, s, key, now, s');
    OneMoreEntry(s.entries, key, s'.entries[key]);
  }

  lemma InsertHistory(cfg: Config, s: Registry, key: Key, now: Time, s': Registry)
    requires RegistryInv(cfg, s) && key !in s.entries && Inserts(s, key, now, s')
    ensures HistoryOk(s')
  {
    forall i | 0 <= i < |s'.published| ensures PublicationOk(s', i) { assert PublicationOk(s, i); }
  }

  lemma TouchedKeepsInv(cfg: Config, s: Registry, key: Key, now: Time, s2: Registry)
    requires RegistryInv(cfg, s) && key in Prune(s.entries, now, cfg.ttl)
    requires
      var kept := Prune(s.entries, now, cfg.ttl);
      s2 == s.(entries := kept[key := kept[key].(lastUsed := now)])
    ensures RegistryInv(cfg, s2) && EntryOk(s2, key)
  {
    var kept := Prune(s.entries, now, cfg.ttl);
    PruneShrinks(s.entries, now, cfg.ttl, cfg.capacity, None);
    var s1 := s.(entries := kept);
    ShrinkKeepsInv(cfg, s, kept, s1);
    TouchKeepsInv(cfg, s1, key, now, s2);
  }

  lemma RetakeUnfolds(cfg: Config, s: Registry, key: Key, victim: Option<Key>, now: Time, s2: Registry, s': Registry)
    requires key in Prune(s.entries, now, cfg.ttl)
    requires
      var kept := Prune(s.entries, now, cfg.ttl);
      && !kept[key].complete && !kept[key].processing && kept[key].result.Some?
      && s2 == s.(entries := kept[key := kept[key].(lastUsed := now)])
    requires s' == ClaimTx(cfg, s, key, victim, now).0
    ensures Retakes(s2, key, s')
  {
  }

  lemma ClaimExistingKeepsInv(cfg: Config, s: Registry, key: Key, victim: Option<Key>, now: Time, s': Registry)
    requires RegistryInv(cfg, s) && key in Prune(s.entries, now, cfg.ttl) && s' == ClaimTx(cfg, s, key, victim, now).0
    ensures RegistryInv(cfg, s')
  {
    var kept := Prune(s.entries, now, cfg.ttl);
    var s2 := s.(entries := kept[key := kept[key].(lastUsed := now)]);
    TouchedKeepsInv(cfg, s, key, now, s2);
    if !kept[key].complete && !kept[key].processing {
      RetakeUnfolds(cfg, s, key, victim, now, s2, s');
      RetakeKeepsInv(cfg, s2, key, s');
    }
  }

  lemma ClaimNewKeepsInv(cfg: Config, s: Registry, key: Key, victim: Option<Key>, now: Time, s': Registry)
    requires RegistryInv(cfg, s) && key !in Prune(s.entries, now, cfg.ttl) && s' == ClaimTx(cfg, s, key, victim, now).0
    ensures RegistryInv(cfg, s')
  {
    PruneShrinks(s.entries, now, cfg.ttl, cfg.capacity, victim);
    var left := Evict(Prune(s.entries, now, cfg.ttl), cfg.capacity, victim);
    ShrinkKeepsInv(cfg, s, left, s.(entries := left));
    if |left| < cfg.capacity {
      InsertKeepsInv(cfg, s.(entries := left), key, now, s');
    }
  }

  lemma ClaimKeepsInv(cfg: Config, s: Registry, key: Key, victim: Option<Key>, now: Time)
    requires RegistryInv(cfg, s)
    ensures RegistryInv(cfg, ClaimTx(cfg, s, key, victim, now).0)
  {
    if key in Prune(s.entries, now, cfg.ttl) {
      ClaimExistingKeepsInv(cfg, s, key, victim, now, ClaimTx(cfg, s, key, victim, now).0);
    } else {
      ClaimNewKeepsInv(cfg, s, key, victim, now, ClaimTx(cfg, s, key, victim, now).0);
    }
  }

  /** What the holder of an entry may do: its own phase, its own entry, the history of its own entry. */
  predicate HolderChange(s: Registry, p: nat, s': Registry)
    requires p in s.processes
  {
    var q := s.processes[p];
    && Active(q) && p in s'.processes && s'.processes == s.processes[p := q.(phase := s'.processes[p].phase)]
    && s'.nextId == s.nextId && s'.nextProcess == s.nextProcess
    && (q.key in s.entries ==>
          || s'.entries == s.entries - {q.key}
          || (&& q.key in s'.entries && s'.entries == s.entries[q.key := s'.entries[q.key]]
              && s'.entries[q.key].id == s.entries[q.key].id))
    && (s'.successes == s.successes || s'.successes == s.successes[q.id := 1])
    && (q.key in s'.entries ==> EntryOk(s', q.key))
    && ProcessOk(s', p)
  }

  lemma HolderProcesses(s: Registry, p: nat, s': Registry)
    requires ProcessesOk(s) && p in s.processes && HolderChange(s, p, s')
    requires forall k, l :: k in s.entries && l in s.entries && k != l ==> s.entries[k].id != s.entries[l].id
    ensures ProcessesOk(s')
  {
    assert ProcessOk(s, p);
    forall r | r in s'.processes ensures ProcessOk(s', r) {
      if r != p { assert ProcessOk(s, r); }
    }
  }

  lemma HolderKeepsInv(cfg: Config, s: Registry, p: nat, s': Registry)
    requires RegistryInv(cfg, s) && p in s.processes && HolderChange(s, p, s')
    requires HistoryOk(s')
    ensures RegistryInv(cfg, s')
  {
    assert ProcessOk(s, p);
    SmallerMap(s'.entries, s.entries);
    HolderProcesses(s, p, s');
    forall k | k in s'.entries ensures EntryOk(s', k) {
      if k != s.processes[p].key { assert EntryOk(s, k); }
    }
  }

  /** Publications keep agreeing when the holder's entry keeps its result, or had none. */
  lemma HistoryKeeps(cfg: Config, s: Registry, p: nat, s': Registry)
    requires RegistryInv(cfg, s) && p in s.processes && HolderChange(s, p, s') && s'.published == s.published
    requires
      var key := s.processes[p].key;
      key in s.entries && key in s'.entries ==>
        s.entries[key].result == None || s'.entries[key].result == s.entries[key].result
    ensures HistoryOk(s')
  {
    assert ProcessOk(s, p);
    forall i | 0 <= i < |s'.published| ensures PublicationOk(s', i) {
      assert PublicationOk(s, i);
    }
  }

  lemma HolderStepKeepsInv(cfg: Config, s: Registry, step: Step, p: nat, s': Registry)
    requires RegistryInv(cfg, s) && s' == Apply(cfg, s, step) && s' != s
    requires
      || (step.ExecuteSucceeds? && step.p == p) || (step.ExecuteFails? && step.p == p)
      || (step.RememberResult? && step.p == p) || (step.Finish? && step.p == p)
    ensures RegistryInv(cfg, s')
  {
    assert ProcessOk(s, p);
    assert EntryOk(s, s.processes[p].key);
    assert HolderChange(s, p, s');
    HistoryKeeps(cfg, s, p, s');
    HolderKeepsInv(cfg, s, p, s');
  }

  lemma PublishKeepsInv(cfg: Config, s: Registry, p: nat, s': Registry)
    requires RegistryInv(cfg, s) && s' == Apply(cfg, s, Publish(p)) && s' != s
    ensures RegistryInv(cfg, s')
  {
    assert ProcessOk(s, p);
    var q := s.processes[p];
    assert EntryOk(s, q.key);
    forall i | 0 <= i < |s'.published|
      ensures PublicationOk(s', i) && (s'.published[i].0 == q.id ==> s'.published[i].1 == q.phase.value)
    {
      if i < |s.published| {
        assert PublicationOk(s, i);
      }
    }
    assert s'.entries == s.entries[q.key := s.entries[q.key]];
    HolderKeepsInv(cfg, s, p, s');
  }

  lemma StepKeepsInv(cfg: Config, s: Registry, step: Step)
    requires RegistryInv(cfg, s)
    ensures RegistryInv(cfg, Apply(cfg, s, step))
  {
    match step
    case Claim(key, victim, now) => ClaimKeepsInv(cfg, s, key, victim, now);
    case Publish(p) =>
      if Apply(cfg, s, step) != s { PublishKeepsInv(cfg, s, p, Apply(cfg, s, step)); }
    case _ =>
      if Apply(cfg, s, step) != s { HolderStepKeepsInv(cfg, s, step, step.p, Apply(cfg, s, step)); }
  }

  lemma {:induction false} RunKeepsInv(cfg: Config, s: Registry, steps: seq<Step>)
    requires RegistryInv(cfg, s)
    ensures RegistryInv(cfg, Run(cfg, s, steps))
    decreases |steps|
  {
    if steps != [] {
      StepKeepsInv(cfg, s, steps[0]);
      RunKeepsInv(cfg, Apply(cfg, s, steps[0]), steps[1..]);
    }
  }

  // -------------------------------------------------------------------- theorems

  lemma StartInv(cfg: Config)
    ensures RegistryInv(cfg, Start())
  {
  }

  /** In every run a key has at most one active process, and the table never exceeds its capacity. */
  lemma OneProcessPerKey(cfg: Config, steps: seq<Step>, p: nat, q: nat)
    ensures
      var s := Run(cfg, Start(), steps);
      && |s.entries| <= cfg.capacity
      && (p in s.processes && q in s.processes && p != q && Active(s.processes[p]) && Active(s.processes[q]) ==>
            s.processes[p].key != s.processes[q].key)
  {
    StartInv(cfg);
    RunKeepsInv(cfg, Start(), steps);
    var s := Run(cfg, Start(), steps);
    assert p in s.processes ==> ProcessOk(s, p);
    assert q in s.processes ==> ProcessOk(s, q);
  }

  /** In every run the execution of an entry succeeds at most once, and all its publications carry that one result. */
  lemma OneResultPerEntry(cfg: Config, steps: seq<Step>, id: nat, i: nat, j: nat)
    ensures
      var s := Run(cfg, Start(), steps);
      && Successes(s, id) <= 1
      && (i < |s.published| && j < |s.published| && s.published[i].0 == s.published[j].0 ==>
            s.published[i].1 == s.published[j].1)
  {
    StartInv(cfg);
    RunKeepsInv(cfg, Start(), steps);
  }

  /** Nobody ever loses its entry to pruning or eviction: the pointer comparisons never fail. */
  lemma HolderKeepsEntry(cfg: Config, steps: seq<Step>, p: nat)
    ensures
      var s := Run(cfg, Start(), steps);
      p in s.processes && Active(s.processes[p]) ==>
        var q := s.processes[p];
        Same(s.entries, q.key, q.id) && s.entries[q.key].processing
  {
    StartInv(cfg);
    RunKeepsInv(cfg, Start(), steps);
    var s := Run(cfg, Start(), steps);
    assert p in s.processes ==> ProcessOk(s, p);
  }

  /** What a claim leaves: everything unfinished, and the other entries as they were. */
  lemma ClaimEntries(cfg: Config, s: Registry, key: Key, victim: Option<Key>, now: Time, s': Registry)
    requires s' == ClaimTx(cfg, s, key, victim, now).0
    ensures forall k :: k in s.entries && !Finished(s.entries[k]) ==> Same(s'.entries, k, s.entries[k].id)
    ensures forall k :: k in s'.entries && k != key ==> k in s.entries && s'.entries[k] == s.entries[k]
    ensures key in s'.entries ==>
      || s'.entries[key].id == s.nextId
      || (&& key in s.entries && s'.entries[key].id == s.entries[key].id
          && s'.entries[key].complete == s.entries[key].complete)
  {
    PruneShrinks(s.entries, now, cfg.ttl, cfg.capacity, victim);
    var kept := Prune(s.entries, now, cfg.ttl);
    if key !in kept {
      ClaimNewEntries(cfg, s, key, victim, now, s');
    }
  }

  lemma ClaimNewEntries(cfg: Config, s: Registry, key: Key, victim: Option<Key>, now: Time, s': Registry)
    requires s' == ClaimTx(cfg, s, key, victim, now).0 && key !in Prune(s.entries, now, cfg.ttl)
    ensures
      var left := Evict(Prune(s.entries, now, cfg.ttl), cfg.capacity, victim);
      || s'.entries == left
      || s'.entries == left[key := Entry(s.nextId, true, None, false, now)]
  {
  }

  /** And at most one new process, for an entry that is not complete. */
  lemma ClaimProcesses(cfg: Config, s: Registry, key: Key, victim: Option<Key>, now: Time, s': Registry)
    requires s' == ClaimTx(cfg, s, key, victim, now).0
    ensures s'.processes == s.processes ||
      (key in s'.entries && !s'.entries[key].complete && s.nextProcess < s'.nextProcess &&
       exists phase :: s'.processes == s.processes[s.nextProcess := Process(key, s'.entries[key].id, phase)])
    ensures s.nextId <= s'.nextId && s.nextProcess <= s'.nextProcess
  {
  }

  /** An entry that is in progress or not yet published only goes when its own execution fails. */
  lemma UnfinishedStays(cfg: Config, s: Registry, step: Step, k: Key)
    requires RegistryInv(cfg, s) && k in s.entries && !Finished(s.entries[k])
    ensures
      var s' := Apply(cfg, s, step);
      || Same(s'.entries, k, s.entries[k].id)
      || (&& step.ExecuteFails? && step.p in s.processes && s.processes[step.p].key == k
          && s.processes[step.p].phase == Executing && s.entries[k].result == None)
  {
    if step.Claim? {
      ClaimEntries(cfg, s, step.key, step.victim, step.now, Apply(cfg, s, step));
    } else {
      assert step.p in s.processes ==> ProcessOk(s, step.p);
    }
  }

  /** Everything about entry `id` is over: it is complete or gone, and no process made since `n` was made for it. */
  ghost predicate Settled(s: Registry, id: nat, n: nat)
  {
    && id < s.nextId && n <= s.nextProcess
    && (forall k :: k in s.entries && s.entries[k].id == id ==> s.entries[k].complete)
    && (forall p :: p in s.processes && s.processes[p].id == id ==> p < n && !Active(s.processes[p]))
  }

  lemma ClaimKeepsSettled(
    cfg: Config, s: Registry, key: Key, victim: Option<Key>, now: Time, s': Registry, id: nat, n: nat)
    requires Settled(s, id, n) && s' == ClaimTx(cfg, s, key, victim, now).0
    ensures Settled(s', id, n)
  {
    ClaimEntries(cfg, s, key, victim, now, s');
    ClaimProcesses(cfg, s, key, victim, now, s');
  }

  lemma HolderKeepsSettled(cfg: Config, s: Registry, step: Step, s': Registry, id: nat, n: nat)
    requires RegistryInv(cfg, s) && Settled(s, id, n) && !step.Claim? && s' == Apply(cfg, s, step)
    ensures Settled(s', id, n)
  {
    assert step.p in s.processes ==> ProcessOk(s, step.p);
  }

  lemma StepKeepsSettled(cfg: Config, s: Registry, step: Step, id: nat, n: nat)
    requires RegistryInv(cfg, s) && Settled(s, id, n)
    ensures Settled(Apply(cfg, s, step), id, n)
  {
    if step.Claim? {
      ClaimKeepsSettled(cfg, s, step.key, step.victim, step.now, Apply(cfg, s, step), id, n);
    } else {
      HolderKeepsSettled(cfg, s, step, Apply(cfg, s, step), id, n);
    }
  }

  lemma {:induction false} RunKeepsSettled(cfg: Config, s: Registry, steps: seq<Step>, id: nat, n: nat)
    requires RegistryInv(cfg, s) && Settled(s, id, n)
    ensures Settled(Run(cfg, s, steps), id, n)
    decreases |steps|
  {
    if steps != [] {
      StepKeepsSettled(cfg, s, steps[0], id, n);
      StepKeepsInv(cfg, s, steps[0]);
      RunKeepsSettled(cfg, Apply(cfg, s, steps[0]), steps[1..], id, n);
    }
  }

  /**
   * A completed task is never run or published again while it is retained: whatever runs, no new process gets its
   * entry.
   */
  lemma CompletedIsNotRerun(cfg: Config, s: Registry, steps: seq<Step>, k: Key, p: nat, victim: Option<Key>, now: Time)
    requires RegistryInv(cfg, s) && k in s.entries && s.entries[k].complete
    ensures
      var s' := Run(cfg, s, steps);
      && (p in s'.processes && s'.processes[p].id == s.entries[k].id ==> p < s.nextProcess && !Active(s'.processes[p]))
      && (k in Prune(s'.entries, now, cfg.ttl) && s'.entries[k].id == s.entries[k].id ==>
            ClaimTx(cfg, s', k, victim, now).1 == AlreadyDone)
  {
    var id := s.entries[k].id;
    assert EntryOk(s, k);
    forall q | q in s.processes && s.processes[q].id == id ensures q < s.nextProcess && !Active(s.processes[q]) {
      assert ProcessOk(s, q);
    }
    RunKeepsSettled(cfg, s, steps, id, s.nextProcess);
  }

  // ------------------------------------------------------------------- the object

  class Table {
    var entries: map<Key, Entry>
    var nextId: nat
    const capacity: nat
    const ttl: nat

    constructor (capacity: int, ttl: int)
      ensures entries == map[] && nextId == 0
      ensures this.capacity == (if capacity <= 0 then 10_000 else capacity)
      ensures this.ttl == (if ttl <= 0 then HOUR else ttl)
    {
      this.capacity := if capacity <= 0 then 10_000 else capacity;
      this.ttl := if ttl <= 0 then HOUR else ttl;
      entries, nextId := map[], 0;
    }

    method PruneCompleted(now: Time)
      modifies this`entries
      ensures entries == Prune(old(entries), now, ttl)
    {
      var todo := entries.Keys;
      while todo != {}
        invariant todo <= entries.Keys <= old(entries).Keys
        invariant forall k :: k in entries ==> entries[k] == old(entries)[k]
        invariant forall k :: k in old(entries) && k !in todo ==>
                    (k in entries <==> !(Finished(old(entries)[k]) && old(entries)[k].lastUsed + ttl <= now))
        decreases |todo|
      {
        var k :| k in todo;
        if entries[k].complete && !entries[k].processing && now >= entries[k].lastUsed + ttl {
          entries := entries - {k};
        }
        todo := todo - {k};
      }
    }

    /**
     * The eviction scan. The empty key is also its mark for "none yet", so an entry under that key is never evicted;
     * this matters exactly when that entry is the finished one used longest ago.
     */
    method EvictOldestCompleted() returns (victim: Option<Key>)
      modifies this`entries
      ensures entries == Evict(old(entries), capacity, victim)
      ensures |old(entries)| < capacity ==> victim == None
      ensures victim.Some? ==>
        victim.value in old(entries) && Finished(old(entries)[victim.value]) && victim.value != ""
      ensures |old(entries)| >= capacity ==> (EvictsOldest(old(entries), victim) <==> !EmptyKeyIsOldest(old(entries)))
    {
      if |entries| < capacity {
        return None;
      }
      var oldestKey, oldestTime := "", 0;
      var todo := entries.Keys;
      while todo != {}
        invariant todo <= entries.Keys && entries == old(entries)
        invariant oldestKey != "" ==>
                    oldestKey in entries && Finished(entries[oldestKey]) && oldestTime == entries[oldestKey].lastUsed
        invariant forall k :: k in entries && k !in todo && k != "" && Finished(entries[k]) ==>
                    || (oldestKey != "" && oldestTime <= entries[k].lastUsed)
                    || EmptyKeyIsOlder(entries, k)
        decreases |todo|
      {
        var k :| k in todo;
        todo := todo - {k};
        if entries[k].complete && !entries[k].processing {
          if oldestKey == "" || entries[k].lastUsed < oldestTime {
            oldestKey, oldestTime := k, entries[k].lastUsed;
          }
        }
      }
      if oldestKey == "" {
        return None;
      }
      entries := entries - {oldestKey};
      victim := Some(oldestKey);
    }

    /** The locked section of a claim; the victim is whatever the scan chose. */
    method ClaimEntry(key: Key, now: Time, ghost s: Registry) returns (outcome: ClaimOutcome, ghost victim: Option<Key>)
      requires s.entries == entries && s.nextId == nextId
      modifies this`entries, this`nextId
      ensures
        var r := ClaimTx(Config(capacity, ttl), s, key, victim, now);
        entries == r.0.entries && nextId == r.0.nextId && outcome == r.1
      ensures
        var kept := Prune(old(entries), now, ttl);
        if key in kept || |kept| < capacity then victim == None
        else victim != Some("") && (EvictsOldest(kept, victim) <==> !EmptyKeyIsOldest(kept))
    {
      victim := None;
      PruneCompleted(now);
      if key in entries {
        entries := entries[key := entries[key].(lastUsed := now)];
        if entries[key].complete {
          return AlreadyDone, victim;
        }
        if entries[key].processing {
          return Wait, victim;
        }
        entries := entries[key := entries[key].(processing := true)];
        return Claimed(entries[key].id, entries[key].result), victim;
      }
      outcome, victim := AdmitEntry(key, now);
    }

    /** The part of a claim that needs room for a new entry. */
    method AdmitEntry(key: Key, now: Time) returns (outcome: ClaimOutcome, ghost victim: Option<Key>)
      requires key !in entries
      modifies this`entries, this`nextId
      ensures
        var left := Evict(old(entries), capacity, victim);
        if |left| >= capacity then entries == left && nextId == old(nextId) && outcome == Full
        else
          && entries == left[key := Entry(old(nextId), true, None, false, now)]
          && nextId == old(nextId) + 1 && outcome == Claimed(old(nextId), None)
      ensures
        if |old(entries)| < capacity then victim == None
        else victim != Some("") && (EvictsOldest(old(entries), victim) <==> !EmptyKeyIsOldest(old(entries)))
    {
      var evicted := EvictOldestCompleted();
      victim := evicted;
      if |entries| >= capacity {
        return Full, victim;
      }
      entries := entries[key := Entry(nextId, true, None, false, now)];
      outcome := Claimed(nextId, None);
      nextId := nextId + 1;
    }

    method RememberEntry(key: Key, id: nat, value: Value)
      modifies this`entries
      ensures entries == Remember(old(entries), key, id, value)
    {
      if key in entries && entries[key].id == id {
        entries := entries[key := entries[key].(result := Some(value))];
      }
    }

    method FinishExecutionFailure(key: Key, id: nat)
      modifies this`entries
      ensures entries == FinishFailure(old(entries), key, id)
    {
      if key !in entries || entries[key].id != id {
        return;
      }
      entries := entries - {key};
    }

    method FinishPublication(key: Key, id: nat, complete: bool, now: Time)
      modifies this`entries
      ensures entries == FinishPublish(old(entries), key, id, complete, now)
    {
      if key !in entries || entries[key].id != id {
        return;
      }
      entries := entries[key := entries[key].(processing := false, complete := complete, lastUsed := now)];
    }
  }
}
