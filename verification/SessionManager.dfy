/** Sessions, thread keys and undo managers of all users (src/agent/session_manager.rs). */
module SessionManager {
  import opened Wrappers
  import Undo

  type ThreadId = nat

  datatype ThreadKey = ThreadKey(user: string, channel: string, externalId: Option<string>)

  datatype SessionData = SessionData(id: nat, threads: set<ThreadId>, lastActive: int)

  /** `next` is above every id that exists; a new UUID is modelled as the next number. */
  datatype Sys<M> = Sys(
    sessions: map<string, SessionData>,
    threadMap: map<ThreadKey, ThreadId>,
    undo: map<ThreadId, M>,
    next: nat)

  predicate Resolves<M>(s: Sys<M>, key: ThreadKey) {
    key.user in s.sessions && key in s.threadMap && s.threadMap[key] in s.sessions[key.user].threads
  }

  predicate ResolvesTo<M>(s: Sys<M>, key: ThreadKey, t: ThreadId) {
    Resolves(s, key) && s.threadMap[key] == t
  }

  function WithSession<M>(s: Sys<M>, user: string, now: int): Sys<M> {
    if user in s.sessions then s
    else s.(sessions := s.sessions[user := SessionData(s.next, {}, now)], next := s.next + 1)
  }

  function NewThread<M>(s: Sys<M>, key: ThreadKey, now: int, manager: M): Sys<M>
    requires key.user in s.sessions
  {
    var session := s.sessions[key.user];
    Sys(
      s.sessions[key.user := session.(threads := session.threads + {s.next}, lastActive := now)],
      s.threadMap[key := s.next],
      s.undo[s.next := manager],
      s.next + 1)
  }

  function Resolved<M>(s: Sys<M>, key: ThreadKey, now: int, manager: M): (Sys<M>, ThreadId) {
    var s1 := WithSession(s, key.user, now);
    if Resolves(s1, key) then (s1, s1.threadMap[key]) else (NewThread(s1, key, now, manager), s1.next)
  }

  function Registered<M>(s: Sys<M>, key: ThreadKey, t: ThreadId, session: SessionData, manager: M): Sys<M> {
    s.(threadMap := s.threadMap[key := t],
       undo := if t in s.undo then s.undo else s.undo[t := manager],
       sessions := if key.user in s.sessions then s.sessions else s.sessions[key.user := session])
  }

  function WithUndo<M>(s: Sys<M>, t: ThreadId, manager: M): Sys<M> {
    if t in s.undo then s else s.(undo := s.undo[t := manager])
  }

  /** The users whose session is idle and was not locked when the first pass looked at it. */
  function Stale<M>(s: Sys<M>, cutoff: int, busy: set<string>): set<string> {
    set u | u in s.sessions && u !in busy && s.sessions[u].lastActive < cutoff
  }

  /** The threads of stale sessions that were not locked when the second pass looked at them. */
  function StaleThreads<M>(s: Sys<M>, stale: set<string>, busy: set<string>): set<ThreadId> {
    set u, t | u in stale && u in s.sessions && u !in busy && t in s.sessions[u].threads :: t
  }

  function KeysOfOthers(threadMap: map<ThreadKey, ThreadId>, users: set<string>): map<ThreadKey, ThreadId> {
    map k | k in threadMap && k.user !in users :: threadMap[k]
  }

  function Pruned<M>(s: Sys<M>, cutoff: int, busy1: set<string>, busy2: set<string>): Sys<M> {
    var stale := Stale(s, cutoff, busy1);
    s.(sessions := s.sessions - stale,
       threadMap := KeysOfOthers(s.threadMap, stale),
       undo := s.undo - StaleThreads(s, stale, busy2))
  }

  // ---------------------------------------------------------------------
  // The manager
  // ---------------------------------------------------------------------

  class UserSession {
    const id: nat
    const user: string
    var threads: set<ThreadId>
    var lastActive: int

    constructor (id: nat, user: string, now: int)
      ensures this.id == id && this.user == user && threads == {} && lastActive == now
    {
      this.id, this.user, threads, lastActive := id, user, {}, now;
    }

    function View(): SessionData
      reads this
    {
      SessionData(id, threads, lastActive)
    }

    method CreateThread(t: ThreadId, now: int)
      modifies this
      ensures View() == SessionData(id, old(threads) + {t}, now)
    {
      threads, lastActive := threads + {t}, now;
    }
  }

  function Views(sessions: map<string, UserSession>): (views: map<string, SessionData>)
    reads sessions.Values
    ensures views.Keys == sessions.Keys
  {
    map u | u in sessions :: sessions[u].View()
  }

  lemma ViewsOfAdded(sessions: map<string, UserSession>, user: string, session: UserSession)
    ensures Views(sessions[user := session]) == Views(sessions)[user := session.View()]
  {
  }

  lemma ViewsOfRest(sessions: map<string, UserSession>, gone: set<string>)
    ensures Views(sessions - gone) == Views(sessions) - gone
  {
  }

  class Manager {
    var sessions: map<string, UserSession>
    var threadMap: map<ThreadKey, ThreadId>
    var undoManagers: map<ThreadId, Undo.UndoManager>
    var nextId: nat

    function View(): Sys<Undo.UndoManager>
      reads this, sessions.Values
    {
      Sys(Views(sessions), threadMap, undoManagers, nextId)
    }

    /** Each session is kept under its own user, so no two users share one. */
    ghost predicate Valid()
      reads this
    {
      forall u :: u in sessions ==> sessions[u].user == u
    }

    constructor ()
      ensures Valid() && View() == Sys(map[], map[], map[], 0)
    {
      sessions, threadMap, undoManagers, nextId := map[], map[], map[], 0;
    }

    method GetOrCreateSession(user: string, now: int) returns (session: UserSession)
      requires Valid()
      modifies this
      ensures Valid() && View() == WithSession(old(View()), user, now)
      ensures user in sessions && session == sessions[user]
      ensures user in old(sessions) ==> session == old(sessions)[user]
      ensures user !in old(sessions) ==> fresh(session)
      ensures forall u :: u in old(sessions) ==> u in sessions && sessions[u] == old(sessions)[u]
      ensures forall u :: u in sessions && u != user ==> u in old(sessions)
    {
      if user in sessions {
        return sessions[user];
      }
      session := new UserSession(nextId, user, now);
      nextId := nextId + 1;
      ViewsOfAdded(sessions, user, session);
      sessions := sessions[user := session];
    }

    method ResolveThread(key: ThreadKey, now: int) returns (session: UserSession, t: ThreadId)
      requires Valid()
      modifies this, sessions.Values
      ensures Valid() && key.user in sessions && session == sessions[key.user]
      ensures var s1 := WithSession(old(View()), key.user, now);
        if Resolves(s1, key) then View() == s1 && t == s1.threadMap[key]
        else t == s1.next && t in undoManagers && fresh(undoManagers[t])
             && View() == NewThread(s1, key, now, undoManagers[t])
    {
      session := GetOrCreateSession(key.user, now);
      if key in threadMap && threadMap[key] in session.threads {
        t := threadMap[key];
        return;
      }
      t := AddThread(key, now);
    }

    /** The slow path of ResolveThread. */
    method AddThread(key: ThreadKey, now: int) returns (t: ThreadId)
      requires Valid() && key.user in sessions
      modifies this, sessions[key.user]
      ensures sessions == old(sessions) && t == old(nextId) && t in undoManagers && fresh(undoManagers[t])
      ensures View() == NewThread(old(View()), key, now, undoManagers[t])
    {
      t := nextId;
      nextId := nextId + 1;
      hide Views;
      CreateThreadFor(key.user, t, now);
      threadMap := threadMap[key := t];
      var manager := new Undo.UndoManager(Undo.DEFAULT_MAX_CHECKPOINTS);
      undoManagers := undoManagers[t := manager];
    }

    method CreateThreadFor(user: string, t: ThreadId, now: int)
      requires Valid() && user in sessions
      modifies sessions[user]
      ensures Views(sessions) == old(Views(sessions))
        [user := SessionData(sessions[user].id, old(sessions[user].threads) + {t}, now)]
    {
      sessions[user].CreateThread(t, now);
      assert forall u :: u in sessions && u != user ==> sessions[u].View() == old(sessions[u].View());
    }

    /** Makes a thread that was loaded from the database known under its own id, written as `text`. */
    method RegisterThread(user: string, channel: string, t: ThreadId, text: string, session: UserSession)
      requires Valid() && session.user == user
      modifies this
      ensures Valid() && t in undoManagers
      ensures View() == Registered(
        old(View()), ThreadKey(user, channel, Some(text)), t, old(session.View()), undoManagers[t])
    {
      hide Views;
      threadMap := threadMap[ThreadKey(user, channel, Some(text)) := t];
      if t !in undoManagers {
        var manager := new Undo.UndoManager(Undo.DEFAULT_MAX_CHECKPOINTS);
        undoManagers := undoManagers[t := manager];
      }
      if user !in sessions {
        ViewsOfAdded(sessions, user, session);
        sessions := sessions[user := session];
      }
    }

    method GetUndoManager(t: ThreadId) returns (manager: Undo.UndoManager)
      requires Valid()
      modifies this
      ensures Valid() && View() == WithUndo(old(View()), t, manager)
      ensures t in undoManagers && manager == undoManagers[t]
      ensures t in old(undoManagers) ==> manager == old(undoManagers)[t]
      ensures t !in old(undoManagers) ==> fresh(manager)
    {
      if t in undoManagers {
        return undoManagers[t];
      }
      manager := new Undo.UndoManager(Undo.DEFAULT_MAX_CHECKPOINTS);
      undoManagers := undoManagers[t := manager];
    }

    /** `busy1` and `busy2` are the users whose sessions are locked at the first and at the second pass. */
    method PruneStaleSessions(cutoff: int, busy1: set<string>, busy2: set<string>) returns (count: nat)
      requires Valid()
      modifies this
      ensures Valid() && View() == Pruned(old(View()), cutoff, busy1, busy2)
      ensures count == |Stale(old(View()), cutoff, busy1)|
    {
      hide Stale, StaleThreads, KeysOfOthers, Views;
      ghost var before := View();
      StaleIsKnown(before, cutoff, busy1);
      var stale := FindStale(cutoff, busy1);
      if stale == {} {
        PruneNothing(before, cutoff, busy1, busy2);
        return 0;
      }
      var threads := ThreadsOf(stale, busy2);
      count := Remove(stale, threads);
    }

    method Remove(users: set<string>, threads: set<ThreadId>) returns (count: nat)
      requires Valid() && users <= sessions.Keys
      modifies this
      ensures Valid() && count == |users|
      ensures View() == old(View()).(
        sessions := old(View()).sessions - users,
        threadMap := KeysOfOthers(old(threadMap), users),
        undo := old(undoManagers) - threads)
    {
      hide KeysOfOthers, Views;
      count := RemoveSessions(users);
      threadMap := KeysOfOthers(threadMap, users);
      undoManagers := undoManagers - threads;
    }

    method RemoveSessions(users: set<string>) returns (count: nat)
      requires Valid() && users <= sessions.Keys
      modifies this`sessions
      ensures Valid() && count == |users|
      ensures Views(sessions) == old(Views(sessions)) - users
    {
      hide Views;
      ghost var all := sessions;
      ViewsOfRest(sessions, users);
      RemovedCount(sessions, users);
      var before := |sessions|;
      sessions := sessions - users;
      assert sessions == all - users;
      count := before - |sessions|;
    }

    method FindStale(cutoff: int, busy: set<string>) returns (stale: set<string>)
      ensures stale == Stale(View(), cutoff, busy)
    {
      stale := {};
      var todo := sessions.Keys;
      while todo != {}
        invariant todo <= sessions.Keys
        invariant stale == Stale(View(), cutoff, busy) - todo
      {
        var u :| u in todo;
        todo := todo - {u};
        if u !in busy && sessions[u].lastActive < cutoff {
          stale := stale + {u};
        }
      }
    }

    method ThreadsOf(users: set<string>, busy: set<string>) returns (threads: set<ThreadId>)
      ensures threads == StaleThreads(View(), users, busy)
    {
      threads := {};
      var todo, done := users, {};
      while todo != {}
        invariant todo + done == users && todo !! done
        invariant threads == StaleThreads(View(), done, busy)
        decreases todo
      {
        var u :| u in todo;
        StaleThreadsOfOne(View(), done, u, busy);
        if u in sessions && u !in busy {
          threads := threads + sessions[u].threads;
        }
        todo, done := todo - {u}, done + {u};
      }
      assert done == users;
    }
  }

  lemma StaleThreadsOfOne<M>(s: Sys<M>, users: set<string>, u: string, busy: set<string>)
    ensures StaleThreads(s, users + {u}, busy) ==
            StaleThreads(s, users, busy) + if u in s.sessions && u !in busy then s.sessions[u].threads else {}
  {
  }

  lemma StaleIsKnown<M>(s: Sys<M>, cutoff: int, busy: set<string>)
    ensures Stale(s, cutoff, busy) <= s.sessions.Keys
  {
  }

  lemma RemovedCount<K, V>(m: map<K, V>, gone: set<K>)
    requires gone <= m.Keys
    ensures |m| - |m - gone| == |gone|
  {
    assert (m - gone).Keys == m.Keys - gone;
    assert |m.Keys| == |m| && |(m - gone).Keys| == |m - gone|;
  }

  lemma PruneNothing<M>(s: Sys<M>, cutoff: int, busy1: set<string>, busy2: set<string>)
    requires Stale(s, cutoff, busy1) == {}
    ensures Pruned(s, cutoff, busy1, busy2) == s
  {
    assert KeysOfOthers(s.threadMap, {}) == s.threadMap;
  }

  // ---------------------------------------------------------------------
  // Runs of calls
  // ---------------------------------------------------------------------

  datatype Call<M> =
    | GetOrCreate(user: string, now: int)
    | Resolve(key: ThreadKey, now: int, manager: M)
    | Register(key: ThreadKey, t: ThreadId, session: SessionData, manager: M)
    | GetUndo(t: ThreadId, manager: M)
    | Prune(cutoff: int, busy1: set<string>, busy2: set<string>)
    // The write sections of a prune by themselves, with what its two passes found.
    | DropSessions(users: set<string>)
    | DropKeys(users: set<string>)
    | DropUndo(threads: set<ThreadId>)
    // The user's own activity: threads are loaded, created or dropped.
    | Edit(user: string, threads: set<ThreadId>, now: int)

  predicate Known(ids: set<nat>, next: nat) {
    forall t :: t in ids ==> t < next
  }

  /** The ids that a call is given exist already. */
  predicate Allowed<M>(s: Sys<M>, call: Call<M>) {
    match call
    case Register(_, t, session, _) => t < s.next && session.id < s.next && Known(session.threads, s.next)
    case GetUndo(t, _) => t < s.next
    case Edit(_, threads, _) => Known(threads, s.next)
    case _ => true
  }

  function Step<M>(s: Sys<M>, call: Call<M>): Sys<M> {
    if !Allowed(s, call) then s
    else
      match call
      case GetOrCreate(user, now) => WithSession(s, user, now)
      case Resolve(key, now, manager) => Resolved(s, key, now, manager).0
      case Register(key, t, session, manager) => Registered(s, key, t, session, manager)
      case GetUndo(t, manager) => WithUndo(s, t, manager)
      case Prune(cutoff, busy1, busy2) => Pruned(s, cutoff, busy1, busy2)
      case DropSessions(users) => s.(sessions := s.sessions - users)
      case DropKeys(users) => s.(threadMap := KeysOfOthers(s.threadMap, users))
      case DropUndo(threads) => s.(undo := s.undo - threads)
      case Edit(user, threads, now) =>
        if user in s.sessions
        then s.(sessions := s.sessions[user := s.sessions[user].(threads := threads, lastActive := now)])
        else s
  }

  function Run<M>(s: Sys<M>, calls: seq<Call<M>>): Sys<M> {
    if calls == [] then s else Step(Run(s, calls[..|calls| - 1]), calls[|calls| - 1])
  }

  function Empty<M>(): Sys<M> {
    Sys(map[], map[], map[], 0)
  }

  /** No id is newer than the newest. */
  ghost predicate Agree<M>(s: Sys<M>) {
    && (forall k :: k in s.threadMap ==> s.threadMap[k] < s.next)
    && (forall u :: u in s.sessions ==> s.sessions[u].id < s.next && Known(s.sessions[u].threads, s.next))
    && Known(s.undo.Keys, s.next)
  }

  lemma ResolveKeepsAgree<M>(s: Sys<M>, key: ThreadKey, now: int, manager: M)
    requires Agree(s)
    ensures Agree(Resolved(s, key, now, manager).0) && Resolved(s, key, now, manager).0.next >= s.next
  {
    var s1 := WithSession(s, key.user, now);
    assert Agree(s1);
    if !Resolves(s1, key) {
      NewThreadKeepsAgree(s1, key, now, manager);
    }
  }

  lemma NewThreadKeepsAgree<M>(s: Sys<M>, key: ThreadKey, now: int, manager: M)
    requires Agree(s) && key.user in s.sessions
    ensures Agree(NewThread(s, key, now, manager))
  {
  }

  lemma PruneKeepsAgree<M>(s: Sys<M>, cutoff: int, busy1: set<string>, busy2: set<string>)
    requires Agree(s)
    ensures Agree(Pruned(s, cutoff, busy1, busy2))
  {
    hide Stale, StaleThreads;
  }

  lemma RegisterKeepsAgree<M>(s: Sys<M>, call: Call<M>)
    requires Agree(s) && call.Register? && Allowed(s, call)
    ensures Agree(Step(s, call))
  {
  }

  lemma StepKeepsAgree<M>(s: Sys<M>, call: Call<M>)
    requires Agree(s)
    ensures Agree(Step(s, call)) && Step(s, call).next >= s.next
  {
    match call
    case Resolve(key, now, manager) =>
      hide Agree, Resolved;
      ResolveKeepsAgree(s, key, now, manager);
    case Prune(cutoff, busy1, busy2) =>
      hide Agree;
      PruneKeepsAgree(s, cutoff, busy1, busy2);
    case Register(_, _, _, _) =>
      hide Agree;
      if Allowed(s, call) {
        RegisterKeepsAgree(s, call);
      }
    case _ =>
  }

  lemma {:induction false} RunKeepsAgree<M>(calls: seq<Call<M>>)
    ensures Agree(Run(Empty(), calls))
  {
    if calls != [] {
      RunKeepsAgree<M>(calls[..|calls| - 1]);
      StepKeepsAgree(Run(Empty(), calls[..|calls| - 1]), calls[|calls| - 1]);
    }
  }

  /** Every key has a session. */
  ghost predicate Keyed<M>(s: Sys<M>) {
    forall k :: k in s.threadMap ==> k.user in s.sessions
  }

  /** Keys and sessions stay in step, but for the time between two sections of a prune. */
  lemma StepKeepsKeyedIff<M>(s: Sys<M>, call: Call<M>)
    requires Keyed(s)
    ensures Keyed(Step(s, call)) <==>
            !(call.DropSessions? && exists k :: k in s.threadMap && k.user in call.users)
  {
    hide Stale, StaleThreads;
    if call.Resolve? {
      ResolveKeepsKeyed(s, call.key, call.now, call.manager);
    }
  }

  lemma ResolveKeepsKeyed<M>(s: Sys<M>, key: ThreadKey, now: int, manager: M)
    requires Keyed(s)
    ensures Keyed(Resolved(s, key, now, manager).0)
  {
  }

  /** A prune with nothing in between is its three write sections in a row. */
  lemma PruneInSections<M>(s: Sys<M>, cutoff: int, busy1: set<string>, busy2: set<string>)
    ensures var stale := Stale(s, cutoff, busy1);
      Pruned(s, cutoff, busy1, busy2) ==
      Step(Step(Step(s, DropSessions(stale)), DropKeys(stale)), DropUndo(StaleThreads(s, stale, busy2)))
  {
    hide Stale, StaleThreads, KeysOfOthers;
  }

  /** The calls that break what a key resolves to. */
  predicate Disturbs<M>(s: Sys<M>, key: ThreadKey, t: ThreadId, call: Call<M>) {
    && Allowed(s, call)
    && match call
       case Register(k, other, _, _) => k == key && other != t
       case Prune(cutoff, busy1, _) => key.user in Stale(s, cutoff, busy1)
       case DropSessions(users) => key.user in users
       case DropKeys(users) => key.user in users
       case Edit(user, threads, _) => user == key.user && t !in threads
       case _ => false
  }

  lemma ResolveKeepsResolution<M>(
      s: Sys<M>, key: ThreadKey, t: ThreadId, other: ThreadKey, now: int, manager: M)
    requires Agree(s) && ResolvesTo(s, key, t)
    ensures ResolvesTo(Resolved(s, other, now, manager).0, key, t)
  {
    var s1 := WithSession(s, other.user, now);
    assert ResolvesTo(s1, key, t);
    if !Resolves(s1, other) {
      assert other != key;
    }
  }

  /** One call breaks what a key resolves to exactly when it is one of the disturbing calls. */
  lemma StepKeepsResolutionIff<M>(s: Sys<M>, key: ThreadKey, t: ThreadId, call: Call<M>)
    requires Agree(s) && ResolvesTo(s, key, t)
    ensures ResolvesTo(Step(s, call), key, t) <==> !Disturbs(s, key, t, call)
  {
    match call
    case Resolve(other, now, manager) =>
      hide Agree, Resolved, Resolves;
      ResolveKeepsResolution(s, key, t, other, now, manager);
    case Prune(cutoff, busy1, busy2) => hide Agree, Stale, StaleThreads;
    case _ =>
  }

  /** No call of the run disturbs the key. */
  ghost predicate NeverDisturbed<M>(s: Sys<M>, key: ThreadKey, t: ThreadId, calls: seq<Call<M>>) {
    forall i :: 0 <= i < |calls| ==> !Disturbs(Run(s, calls[..i]), key, t, calls[i])
  }

  lemma {:induction false} RunKeepsResolution<M>(s: Sys<M>, key: ThreadKey, t: ThreadId, calls: seq<Call<M>>)
    requires Agree(s) && ResolvesTo(s, key, t) && NeverDisturbed(s, key, t, calls)
    ensures Agree(Run(s, calls)) && ResolvesTo(Run(s, calls), key, t)
  {
    hide Agree, ResolvesTo, Disturbs, Step;
    if calls != [] {
      var before, call := calls[..|calls| - 1], calls[|calls| - 1];
      assert forall i :: 0 <= i < |before| ==> before[..i] == calls[..i] && before[i] == calls[i];
      RunKeepsResolution(s, key, t, before);
      StepKeepsAgree(Run(s, before), call);
      StepKeepsResolutionIff(Run(s, before), key, t, call);
    }
  }

  /**
   Resolving is stable: after a key was resolved and any calls that do not disturb it were made, resolving
   it again gives the same thread and changes nothing.
   */
  lemma ResolveIsStable<M>(
      before: seq<Call<M>>, key: ThreadKey, now: int, manager: M, calls: seq<Call<M>>, later: int, unused: M)
    requires var r := Resolved(Run(Empty(), before), key, now, manager); NeverDisturbed(r.0, key, r.1, calls)
    ensures var r := Resolved(Run(Empty(), before), key, now, manager);
      Resolved(Run(r.0, calls), key, later, unused) == (Run(r.0, calls), r.1)
  {
    hide Agree;
    RunKeepsAgree(before);
    var s := Run(Empty(), before);
    var r := Resolved(s, key, now, manager);
    ResolveKeepsAgree(s, key, now, manager);
    assert ResolvesTo(r.0, key, r.1);
    RunKeepsResolution(r.0, key, r.1, calls);
  }

  /**
   A key that does not resolve gets a thread that nobody had, in its own user's session, with an undo
   manager; every other session and every other key stay as they were.
   */
  lemma NewKeyGetsNewThread<M>(before: seq<Call<M>>, key: ThreadKey, now: int, manager: M)
    requires !Resolves(Run(Empty(), before), key)
    ensures var s := Run(Empty(), before); var r := Resolved(s, key, now, manager);
      var after, t := r.0, r.1;
      && ResolvesTo(after, key, t) && after.undo == s.undo[t := manager]
      && after.sessions[key.user].lastActive == now
      && t !in s.undo && t !in s.threadMap.Values
      && (forall u :: u in s.sessions ==> t !in s.sessions[u].threads)
      && (forall u :: u in s.sessions && u != key.user ==>
            u in after.sessions && after.sessions[u] == s.sessions[u])
      && (forall k :: k != key ==> (k in after.threadMap <==> k in s.threadMap))
      && (forall k :: k != key && k in s.threadMap ==> after.threadMap[k] == s.threadMap[k])
  {
    RunKeepsAgree(before);
    hide Run;
  }

  /** Pruning takes away a user exactly when it is stale, with every key of it and no other. */
  lemma PruneIsExact<M>(before: seq<Call<M>>, cutoff: int, busy1: set<string>, busy2: set<string>)
    ensures var s := Run(Empty(), before); var after := Pruned(s, cutoff, busy1, busy2);
      && (forall u :: u in s.sessions ==>
            (u !in after.sessions <==> u !in busy1 && s.sessions[u].lastActive < cutoff))
      && (forall u :: u in after.sessions ==> u in s.sessions && after.sessions[u] == s.sessions[u])
      && (forall k :: k in s.threadMap ==>
            (k in after.threadMap <==> (k.user in s.sessions ==> k.user in after.sessions)))
      && (forall k :: k in after.threadMap ==> k in s.threadMap && after.threadMap[k] == s.threadMap[k])
      && (forall k: ThreadKey :: k.user in after.sessions ==> (Resolves(after, k) <==> Resolves(s, k)))
  {
    RunKeepsAgree(before);
    hide Run;
  }

  /** A thread loses its undo manager exactly when a stale session that the second pass could lock holds it. */
  lemma UndoIsPrunedIff<M>(s: Sys<M>, cutoff: int, busy1: set<string>, busy2: set<string>, t: ThreadId)
    requires t in s.undo
    ensures t !in Pruned(s, cutoff, busy1, busy2).undo <==>
            exists u :: u in s.sessions && t in s.sessions[u].threads && u !in busy2
                        && u !in Pruned(s, cutoff, busy1, busy2).sessions
  {
    var stale := Stale(s, cutoff, busy1);
    if u :| u in s.sessions && t in s.sessions[u].threads && u !in busy2 && u in stale {
      assert t in StaleThreads(s, stale, busy2);
    }
  }

  /** A user with one thread is pruned while its session is locked at the second pass: the undo manager stays. */
  lemma LockedPruneLeavesUndo<M>(key: ThreadKey, now: int, cutoff: int, manager: M)
    requires now < cutoff
    ensures var s := Run(Empty(), [Resolve(key, now, manager), Prune(cutoff, {}, {key.user})]);
      s.sessions == map[] && s.threadMap == map[] && s.undo == map[1 := manager]
  {
    var calls := [Resolve(key, now, manager), Prune(cutoff, {}, {key.user})];
    var first := Run(Empty(), calls[..1]);
    RunStart(Empty<M>(), calls);
    FirstThread(key, now, manager);
    assert first == Resolved<M>(Empty(), key, now, manager).0;
    assert Stale(first, cutoff, {}) == {key.user};
  }

  /** A run in which a user comes back between two sections of a prune. */
  function ReturningRun<M>(key: ThreadKey, now: int, m: M): seq<Call<M>> {
    [Resolve(key, now, m), DropSessions({key.user}), Resolve(key, now, m), DropKeys({key.user})]
  }

  /**
   A user who comes back between two sections of a prune gets a new session and a new thread, but the prune
   takes the new key with the old one; the next message gets yet another thread.
   */
  lemma ReturningUserLosesKey<M>(key: ThreadKey, now: int, m: M)
    ensures var s := Run(Empty(), ReturningRun(key, now, m));
      && key.user in s.sessions && s.sessions[key.user].threads == {3}
      && key !in s.threadMap
      && Resolved(s, key, now, m).1 == 4
  {
    var calls := ReturningRun(key, now, m);
    var s1, s2, s3 := Run(Empty(), calls[..1]), Run(Empty(), calls[..2]), Run(Empty(), calls[..3]);
    RunStart(Empty<M>(), calls);
    assert calls[..2][..1] == calls[..1] && calls[..3][..2] == calls[..2];
    assert calls[..3] == calls[..|calls| - 1];
    FirstThread(key, now, m);
    assert s1 == Resolved<M>(Empty(), key, now, m).0;
    assert s2.sessions == map[];
    NextThread(s2, key, now, m);
    assert s3 == Resolved(s2, key, now, m).0;
  }

  lemma RunStart<M>(s: Sys<M>, calls: seq<Call<M>>)
    requires calls != []
    ensures Run(s, calls[..1]) == Step(s, calls[0])
  {
    assert calls[..1][..0] == [];
    assert Run(s, []) == s;
  }

  lemma FirstThread<M>(key: ThreadKey, now: int, m: M)
    ensures Resolved<M>(Empty(), key, now, m).0 ==
            Sys(map[key.user := SessionData(0, {1}, now)], map[key := 1], map[1 := m], 2)
  {
    NextThread(Empty<M>(), key, now, m);
    var after := Resolved<M>(Empty(), key, now, m).0;
    assert after.sessions == map[key.user := SessionData(0, {1}, now)];
  }

  /** A user without a session gets a session with one thread. */
  lemma NextThread<M>(s: Sys<M>, key: ThreadKey, now: int, m: M)
    requires key.user !in s.sessions
    ensures var after := Resolved(s, key, now, m).0;
      && key.user in after.sessions && after.sessions[key.user] == SessionData(s.next, {s.next + 1}, now)
      && after.next == s.next + 2
  {
    var created := WithSession(s, key.user, now);
    var t := created.next;
    assert created.sessions[key.user] == SessionData(s.next, {}, now);
    var threads := created.sessions[key.user].threads + {t};
    assert forall u :: u in threads <==> u == t;
    assert threads == {t};
  }

  /** A thread keeps its undo manager, the very same one, through every call that does not prune it. */
  lemma UndoIsKeptIff<M>(s: Sys<M>, t: ThreadId, call: Call<M>)
    requires Agree(s) && t in s.undo
    ensures t in Step(s, call).undo && Step(s, call).undo[t] == s.undo[t]
            <==> && !(call.Prune? && t in StaleThreads(s, Stale(s, call.cutoff, call.busy1), call.busy2))
                 && !(call.DropUndo? && t in call.threads)
  {
    hide StaleThreads, Stale;
  }

  // ---------------------------------------------------------------------
  // Concurrent calls of get_or_create_session and of get_undo_manager
  // ---------------------------------------------------------------------

  /** Where a call is: before its read, between read and write lock, or finished with an object. */
  datatype Phase<K(==)> = Start(key: K) | Missed(key: K) | Done(key: K, got: nat)

  /** The calls, the map that they share, and what they created; the ids of new objects start at `base`. */
  datatype Race<K(==)> = Race(calls: seq<Phase<K>>, table: map<K, nat>, created: seq<(K, nat)>, base: nat)

  function StartRace<K(==)>(table: map<K, nat>, base: nat, keys: seq<K>): (r: Race<K>)
    ensures |r.calls| == |keys|
  {
    Race(seq(|keys|, i requires 0 <= i < |keys| => Start(keys[i])), table, [], base)
  }

  /** The next lock section of call `i`; a finished call does nothing. */
  function Advance<K(==)>(r: Race<K>, i: nat): Race<K>
    requires i < |r.calls|
  {
    match r.calls[i]
    case Start(key) =>
      r.(calls := r.calls[i := if key in r.table then Done(key, r.table[key]) else Missed(key)])
    case Missed(key) =>
      if key in r.table then r.(calls := r.calls[i := Done(key, r.table[key])])
      else
        var id := r.base + |r.created|;
        r.(calls := r.calls[i := Done(key, id)], table := r.table[key := id], created := r.created + [(key, id)])
    case Done(_, _) => r
  }

  function RunRace<K(==)>(table: map<K, nat>, base: nat, keys: seq<K>, schedule: seq<nat>): (r: Race<K>)
    requires forall k :: 0 <= k < |schedule| ==> schedule[k] < |keys|
    ensures |r.calls| == |keys|
  {
    if schedule == [] then StartRace(table, base, keys)
    else
      var last := schedule[|schedule| - 1];
      Advance(RunRace(table, base, keys, schedule[..|schedule| - 1]), last)
  }

  ghost predicate RaceInv<K>(table: map<K, nat>, keys: seq<K>, r: Race<K>) {
    && |r.calls| == |keys|
    && (forall i :: 0 <= i < |keys| ==> r.calls[i].key == keys[i])
    && (forall i :: 0 <= i < |keys| && r.calls[i].Done? ==>
          keys[i] in r.table && r.calls[i].got == r.table[keys[i]])
    && (forall k :: k in table ==> k in r.table && r.table[k] == table[k])
    && (forall j :: 0 <= j < |r.created| ==>
          && r.created[j].0 !in table && r.created[j].0 in r.table
          && r.table[r.created[j].0] == r.base + j == r.created[j].1)
  }

  lemma AdvanceKeepsRaceInv<K>(table: map<K, nat>, keys: seq<K>, r: Race<K>, i: nat)
    requires RaceInv(table, keys, r) && i < |keys|
    ensures RaceInv(table, keys, Advance(r, i))
  {
  }

  lemma {:induction false} RaceKeepsInv<K>(table: map<K, nat>, base: nat, keys: seq<K>, schedule: seq<nat>)
    requires forall k :: 0 <= k < |schedule| ==> schedule[k] < |keys|
    ensures RaceInv(table, keys, RunRace(table, base, keys, schedule))
  {
    if schedule != [] {
      var before := schedule[..|schedule| - 1];
      RaceKeepsInv(table, base, keys, before);
      AdvanceKeepsRaceInv(table, keys, RunRace(table, base, keys, before), schedule[|schedule| - 1]);
    }
  }

  predicate SameKeyDone<K(==)>(r: Race<K>, i: nat, j: nat)
    requires i < |r.calls| && j < |r.calls|
  {
    r.calls[i].Done? && r.calls[j].Done? && r.calls[i].key == r.calls[j].key
  }

  /**
   However the calls interleave, and whatever the map held before: at most one object is ever created for a
   key, none for a key that had one, and all calls for a key get the same object, the old one if there was.
   */
  lemma OneObjectPerKey<K>(table: map<K, nat>, base: nat, keys: seq<K>, schedule: seq<nat>)
    requires forall k :: 0 <= k < |schedule| ==> schedule[k] < |keys|
    ensures var r := RunRace(table, base, keys, schedule);
      && (forall i, j :: 0 <= i < j < |r.created| ==> r.created[i].0 != r.created[j].0)
      && (forall j :: 0 <= j < |r.created| ==> r.created[j].0 !in table)
      && (forall i, j :: 0 <= i < |keys| && 0 <= j < |keys| && SameKeyDone(r, i, j) ==>
            r.calls[i].got == r.calls[j].got)
      && (forall i :: 0 <= i < |keys| && r.calls[i].Done? && r.calls[i].key in table ==>
            r.calls[i].got == table[r.calls[i].key])
  {
    RaceKeepsInv(table, base, keys, schedule);
  }

  // ---------------------------------------------------------------------
  // What registering a thread gives
  // ---------------------------------------------------------------------

  /**
   A registered key resolves to its thread exactly if the thread is in the session that the user has then:
   the old one if there was one, else the one handed over. An undo manager that was there stays.
   */
  lemma RegisteredResolvesIff<M>(s: Sys<M>, key: ThreadKey, t: ThreadId, session: SessionData, m: M)
    ensures var after := Registered(s, key, t, session, m);
      var threads := if key.user in s.sessions then s.sessions[key.user].threads else session.threads;
      && (ResolvesTo(after, key, t) <==> t in threads)
      && key.user in after.sessions && after.sessions[key.user].threads == threads
      && t in after.undo && (t in s.undo ==> after.undo == s.undo) && (t !in s.undo ==> after.undo[t] == m)
      && (forall k :: k != key && k in s.threadMap ==> k in after.threadMap && after.threadMap[k] == s.threadMap[k])
      && (forall u :: u in s.sessions ==> u in after.sessions && after.sessions[u] == s.sessions[u])
  {
  }

  /** After a thread was registered for its user, resolving its key finds it and changes nothing. */
  lemma RegisteredIsFound<M>(
      s: Sys<M>, key: ThreadKey, t: ThreadId, session: SessionData, m: M, now: int, unused: M)
    requires key.user in s.sessions && t in s.sessions[key.user].threads
    ensures var after := Registered(s, key, t, session, m); Resolved(after, key, now, unused) == (after, t)
  {
    RegisteredResolvesIff(s, key, t, session, m);
  }

  /** A session that was just made is not stale yet. */
  lemma NewSessionIsNotStale<M>(s: Sys<M>, user: string, now: int, cutoff: int, busy: set<string>)
    requires user !in s.sessions && cutoff <= now
    ensures user in WithSession(s, user, now).sessions && WithSession(s, user, now).sessions[user].threads == {}
    ensures user !in Stale(WithSession(s, user, now), cutoff, busy)
  {
  }

  /** How often call `i` gets its turn. */
  function Turns(schedule: seq<nat>, i: nat): nat {
    if schedule == [] then 0
    else Turns(schedule[..|schedule| - 1], i) + if schedule[|schedule| - 1] == i then 1 else 0
  }

  /** Two lock sections finish a call, whatever the others do; one is enough to look. */
  lemma {:induction false} CallsFinish<K>(
      table: map<K, nat>, base: nat, keys: seq<K>, schedule: seq<nat>, i: nat)
    requires i < |keys| && forall k :: 0 <= k < |schedule| ==> schedule[k] < |keys|
    ensures Turns(schedule, i) > 0 ==> !RunRace(table, base, keys, schedule).calls[i].Start?
    ensures Turns(schedule, i) > 1 ==> RunRace(table, base, keys, schedule).calls[i].Done?
  {
    if schedule != [] {
      CallsFinish(table, base, keys, schedule[..|schedule| - 1], i);
    }
  }
}
