/**
 * Ownership of a state directory (`benchmarking/run_state.py`, `hold_state_dir` and `_lock_is_stale`), as a protocol
 * over processes that share one lock file and may die at any step.
 */
module StateLock {
  import opened Prelude

  datatype Proc = Proc(host: string, pid: int)

  /** The lock's JSON; a field may be missing. */
  datatype Info = Info(pid: Option<int>, host: Option<string>, startedAt: Option<real>)

  /** Each created file has its own identity and owner; it is empty, or damaged, until its payload is in. */
  datatype LockFile = Absent | Present(id: nat, info: Option<Info>, owner: string)

  /**
   * What users may do: signal another's processes, read the files another creates with mode 0600, and create and remove
   * files in the directory.
   */
  datatype Rights = Rights(maySignal: (string, string) -> bool, mayRead: (string, string) -> bool,
                           mayWrite: string -> bool)

  /** Where a live process is in the call; `since` is the start time it put in its payload. */
  datatype Stage =
    | Idle
    | Ready(since: real, again: bool)
    | Opened(since: real, id: nat)
    | Blocked(since: real)
    | Condemned(since: real)
    | Inside(since: real)
    | Leaving(since: real, mine: bool)

  datatype World = World(now: real, lock: LockFile, stages: map<Proc, Stage>, users: map<Proc, string>, nextId: nat,
                         rights: Rights)

  const MAX_AGE: real := 259200.0

  function InfoOf(p: Proc, since: real): Info {
    Info(Some(p.pid), Some(p.host), Some(since))
  }

  /** Who runs a process, or last ran one under this PID. */
  function UserOf(w: World, p: Proc): string {
    if p in w.users then w.users[p] else ""
  }

  predicate MayRead(w: World, q: Proc) {
    w.lock.Present? ==> w.rights.mayRead(UserOf(w, q), w.lock.owner)
  }

  predicate MaySignal(w: World, q: Proc, p: Proc) {
    w.rights.maySignal(UserOf(w, q), UserOf(w, p))
  }

  predicate MayWrite(w: World, q: Proc) {
    w.rights.mayWrite(UserOf(w, q))
  }

  /** A lock that is missing or damaged, or that this process may not read, reads as a record with no fields. */
  function ReadLock(w: World, q: Proc): Info {
    if w.lock.Present? && w.lock.info.Some? && MayRead(w, q) then w.lock.info.value else Info(None, None, None)
  }

  /** `is_pid_alive` as asked by `q`: a process it may not signal counts as gone. */
  predicate Alive(w: World, q: Proc, pid: int) {
    pid > 0 && Proc(q.host, pid) in w.stages && MaySignal(w, q, Proc(q.host, pid))
  }

  predicate TooOld(w: World, info: Info) {
    info.startedAt.Some? && w.now - info.startedAt.value > MAX_AGE
  }

  /** `_lock_is_stale`, as asked by `q`. */
  predicate IsStale(w: World, q: Proc, info: Info) {
    || TooOld(w, info)
    || ((info.host == None || info.host == Some("") || info.host == Some(q.host))
        && !Alive(w, q, if info.pid.Some? then info.pid.value else -1))
  }

  /** The release test: missing, damaged, not readable or our own. */
  predicate Ours(w: World, p: Proc) {
    || w.lock.Absent? || w.lock.info.None? || !MayRead(w, p)
    || (w.lock.info.value.pid == Some(p.pid) && w.lock.info.value.host == Some(p.host))
  }

  datatype Step =
    | Spawn(p: Proc, user: string) | Die(p: Proc) | Tick(d: real)
    | Enter(p: Proc)
    | Create(p: Proc) | Write(p: Proc)
    | Read(p: Proc) | Unlink(p: Proc)
    | ReadOwn(p: Proc) | Remove(p: Proc)
    // Create and write, and read, decide and unlink, each without anything in between.
    | CreateWrite(p: Proc) | ReadUnlink(p: Proc)

  predicate Enabled(w: World, s: Step) {
    match s
    case Spawn(p, _) => p !in w.stages && p.pid > 0
    case Die(p) => p in w.stages
    case Tick(d) => d >= 0.0
    case Enter(p) => p in w.stages && w.stages[p].Idle?
    case Create(p) => p in w.stages && w.stages[p].Ready?
    case Write(p) => p in w.stages && w.stages[p].Opened?
    case Read(p) => p in w.stages && w.stages[p].Blocked?
    case Unlink(p) => p in w.stages && w.stages[p].Condemned?
    case ReadOwn(p) => p in w.stages && w.stages[p].Inside?
    case Remove(p) => p in w.stages && w.stages[p].Leaving?
    case CreateWrite(p) => p in w.stages && w.stages[p].Ready?
    case ReadUnlink(p) => p in w.stages && w.stages[p].Blocked?
  }

  function Move(w: World, p: Proc, s: Stage): World {
    w.(stages := w.stages[p := s])
  }

  /** The exclusive create; where it is not permitted the call goes on without a lock. */
  function AfterCreate(w: World, p: Proc): World
    requires p in w.stages && w.stages[p].Ready?
  {
    var st := w.stages[p];
    if w.lock.Absent? && !MayWrite(w, p) then Move(w, p, Inside(st.since))
    else if w.lock.Absent? then
      var file := Present(w.nextId, None, UserOf(w, p));
      Move(w.(lock := file, nextId := w.nextId + 1), p, Opened(st.since, w.nextId))
    else if st.again then Move(w, p, Idle)
    else Move(w, p, Blocked(st.since))
  }

  function AfterWrite(w: World, p: Proc): World
    requires p in w.stages && w.stages[p].Opened?
  {
    var st := w.stages[p];
    var mine := w.lock.Present? && w.lock.id == st.id;
    Move(if mine then w.(lock := w.lock.(info := Some(InfoOf(p, st.since)))) else w, p, Inside(st.since))
  }

  function AfterRead(w: World, p: Proc): World
    requires p in w.stages && w.stages[p].Blocked?
  {
    Move(w, p, if IsStale(w, p, ReadLock(w, p)) then Condemned(w.stages[p].since) else Idle)
  }

  /** The file is gone afterwards, if this process may remove it; an error is swallowed. */
  function Without(w: World, p: Proc): LockFile {
    if MayWrite(w, p) then Absent else w.lock
  }

  function AfterUnlink(w: World, p: Proc): World
    requires p in w.stages && w.stages[p].Condemned?
  {
    Move(w.(lock := Without(w, p)), p, Ready(w.stages[p].since, true))
  }

  function Apply(w: World, s: Step): World
    requires Enabled(w, s)
  {
    match s
    case Spawn(p, user) => Move(w.(users := w.users[p := user]), p, Idle)
    case Die(p) => w.(stages := w.stages - {p})
    case Tick(d) => w.(now := w.now + d)
    case Enter(p) => Move(w, p, Ready(w.now, false))
    case Create(p) => AfterCreate(w, p)
    case Write(p) => AfterWrite(w, p)
    case Read(p) => AfterRead(w, p)
    case Unlink(p) => AfterUnlink(w, p)
    case ReadOwn(p) => Move(w, p, Leaving(w.stages[p].since, Ours(w, p)))
    case Remove(p) => Move(if w.stages[p].mine then w.(lock := Without(w, p)) else w, p, Idle)
    case CreateWrite(p) =>
      var w' := AfterCreate(w, p);
      if w'.stages[p].Opened? then AfterWrite(w', p) else w'
    case ReadUnlink(p) =>
      var w' := AfterRead(w, p);
      if w'.stages[p].Condemned? then AfterUnlink(w', p) else w'
  }

  ghost predicate Run(w0: World, log: seq<Step>)
    decreases |log|, 0
  {
    log == [] || (Run(w0, log[..|log| - 1]) && Enabled(After(w0, log[..|log| - 1]), log[|log| - 1]))
  }

  ghost function After(w0: World, log: seq<Step>): World
    requires Run(w0, log)
    decreases |log|, 1
  {
    if log == [] then w0 else Apply(After(w0, log[..|log| - 1]), log[|log| - 1])
  }

  /** Nobody is running yet; any lock file may be lying about. */
  predicate Initial(w: World) {
    w.stages == map[]
  }

  // ---- the assumptions ----

  predicate Atomic(s: Step) {
    !s.Create? && !s.Write? && !s.Read? && !s.Unlink?
  }

  /** Hosts know their own name. */
  predicate Named(s: Step) {
    s.Spawn? ==> s.p.host != ""
  }

  /** No hold, and no release, is older than the ceiling. */
  ghost predicate Calm(w: World) {
    forall p :: p in w.stages && (w.stages[p].Inside? || w.stages[p].Leaving?) ==> w.now - w.stages[p].since <= MAX_AGE
  }

  /** Everyone may write the directory, read everyone's lock and signal everyone on its host. */
  ghost predicate Open(w: World) {
    forall p, q :: p in w.stages && q in w.stages ==>
      && w.rights.mayWrite(UserOf(w, p))
      && w.rights.mayRead(UserOf(w, p), UserOf(w, q))
      && (p.host == q.host ==> w.rights.maySignal(UserOf(w, p), UserOf(w, q)))
  }

  ghost predicate Disciplined(w0: World, log: seq<Step>)
    requires Run(w0, log)
    decreases |log|
  {
    Calm(After(w0, log)) && Open(After(w0, log)) &&
    (log == [] || (Atomic(log[|log| - 1]) && Named(log[|log| - 1]) && Disciplined(w0, log[..|log| - 1])))
  }

  // ---- mutual exclusion ----

  predicate Holds(w: World, p: Proc, since: real) {
    w.lock.Present? && w.lock.info == Some(InfoOf(p, since)) && w.lock.owner == UserOf(w, p)
  }

  /** Whoever is inside, or leaving, has its own payload in the lock file. */
  ghost predicate HoldersOwn(w: World) {
    && (forall p :: p in w.stages && w.stages[p].Inside? ==> Holds(w, p, w.stages[p].since))
    && (forall p :: p in w.stages && w.stages[p].Leaving? ==> Holds(w, p, w.stages[p].since) && w.stages[p].mine)
  }

  ghost predicate Unheld(w: World) {
    forall p :: p in w.stages ==> !w.stages[p].Inside? && !w.stages[p].Leaving?
  }

  ghost predicate Owned(w: World) {
    && HoldersOwn(w)
    && (forall p :: p in w.stages ==> p.pid > 0 && !w.stages[p].Opened? && !w.stages[p].Condemned?)
  }

  /**
   * A live holder's lock looks stale to a process exactly when the hold is over the age ceiling; or the process may not
   * read the lock; or the holder is on its host and it may not signal it; or the holder's host has no name and no
   * process that it may signal has that PID on its own host.
   */
  lemma LiveLockLooksStaleIff(w: World, p: Proc, since: real, q: Proc)
    requires p in w.stages && p.pid > 0 && Holds(w, p, since)
    ensures IsStale(w, q, ReadLock(w, q)) <==>
      || w.now - since > MAX_AGE
      || !MayRead(w, q)
      || (p.host == q.host && !MaySignal(w, q, p))
      || (p.host == "" && !(Proc(q.host, p.pid) in w.stages && MaySignal(w, q, Proc(q.host, p.pid))))
  {
    if p.host == q.host {
      assert Proc(q.host, p.pid) == p;
    }
  }

  ghost predicate AllNamed(w: World) {
    forall p :: p in w.stages ==> p.host != ""
  }

  lemma ReclaimSparesHolders(w: World, q: Proc)
    requires Owned(w) && Calm(w) && Open(w) && AllNamed(w) && q in w.stages && w.stages[q].Blocked?
    ensures IsStale(w, q, ReadLock(w, q)) ==> Unheld(w)
  {
    forall p | p in w.stages && (w.stages[p].Inside? || w.stages[p].Leaving?)
      ensures !IsStale(w, q, ReadLock(w, q))
    {
      LiveLockLooksStaleIff(w, p, w.stages[p].since, q);
    }
  }

  /** A reclaim that finds nobody holding the lock, or finds it held and changes nothing but its own stage. */
  lemma ReclaimKeepsOwned(w: World, q: Proc)
    requires Owned(w) && Enabled(w, ReadUnlink(q)) && (IsStale(w, q, ReadLock(w, q)) ==> Unheld(w))
    ensures Owned(Apply(w, ReadUnlink(q)))
  {
    hide IsStale, ReadLock;
  }

  lemma CreateKeepsOwned(w: World, q: Proc)
    requires Owned(w) && Enabled(w, CreateWrite(q)) && MayWrite(w, q)
    ensures Owned(Apply(w, CreateWrite(q)))
  {
  }

  lemma LeaveKeepsOwned(w: World, q: Proc)
    requires Owned(w)
    ensures Enabled(w, ReadOwn(q)) ==> Owned(Apply(w, ReadOwn(q)))
    ensures Enabled(w, Remove(q)) ==> Owned(Apply(w, Remove(q)))
  {
  }

  /** Coming, going and the passing of time. */
  lemma OutsideKeepsOwned(w: World, s: Step)
    requires Owned(w) && Enabled(w, s) && (s.Spawn? || s.Die? || s.Tick? || s.Enter?)
    ensures Owned(Apply(w, s))
  {
  }

  lemma StepKeepsOwned(w: World, s: Step)
    requires Owned(w) && Calm(w) && Open(w) && Enabled(w, s) && Atomic(s)
    requires AllNamed(w)
    ensures Owned(Apply(w, s))
  {
    hide Apply, Owned, Calm, AllNamed, IsStale, Unheld;
    match s
    case ReadUnlink(q) =>
      ReclaimSparesHolders(w, q);
      ReclaimKeepsOwned(w, q);
    case CreateWrite(q) => CreateKeepsOwned(w, q);
    case ReadOwn(q) => LeaveKeepsOwned(w, q);
    case Remove(q) => LeaveKeepsOwned(w, q);
    case _ => OutsideKeepsOwned(w, s);
  }

  lemma StaysNamed(w: World, s: Step)
    requires AllNamed(w) && Enabled(w, s) && Named(s)
    ensures AllNamed(Apply(w, s))
  {
  }

  lemma NobodyHolds(w: World)
    requires Initial(w)
    ensures Owned(w) && AllNamed(w)
  {
  }

  lemma {:induction false} DisciplineKeepsOwned(w0: World, log: seq<Step>)
    requires Initial(w0) && Run(w0, log) && Disciplined(w0, log)
    ensures Owned(After(w0, log)) && AllNamed(After(w0, log))
    decreases |log|
  {
    hide Owned, AllNamed, Apply, Enabled, Calm, Open, Initial;
    if log == [] {
      NobodyHolds(w0);
    } else {
      var front, s := log[..|log| - 1], log[|log| - 1];
      DisciplineKeepsOwned(w0, front);
      StepKeepsOwned(After(w0, front), s);
      StaysNamed(After(w0, front), s);
    }
  }

  /** At most one process is inside, over every interleaving of creates, reclaims, releases, deaths and restarts. */
  lemma MutualExclusion(w0: World, log: seq<Step>, p: Proc, q: Proc)
    requires Initial(w0) && Run(w0, log) && Disciplined(w0, log)
    requires p in After(w0, log).stages && After(w0, log).stages[p].Inside?
    requires q in After(w0, log).stages && After(w0, log).stages[q].Inside?
    ensures p == q
  {
    DisciplineKeepsOwned(w0, log);
    var w := After(w0, log);
    assert Holds(w, p, w.stages[p].since) && Holds(w, q, w.stages[q].since);
  }

  /** The lock of a process that died on this host is taken over by the next process that asks. */
  lemma DeadOwnersLockIsReclaimed(w: World, q: Proc, owner: Proc, since: real)
    requires q in w.stages && w.stages[q].Idle? && q.host == owner.host
    requires Holds(w, owner, since) && owner !in w.stages && MayWrite(w, q)
    ensures var w1 := Apply(w, Enter(q));
      Enabled(w1, CreateWrite(q)) &&
      var w2 := Apply(w1, CreateWrite(q));
      Enabled(w2, ReadUnlink(q)) &&
      var w3 := Apply(w2, ReadUnlink(q));
      Enabled(w3, CreateWrite(q)) &&
      var w4 := Apply(w3, CreateWrite(q));
      w4.stages[q].Inside? && Holds(w4, q, w4.stages[q].since)
  {
    assert Proc(q.host, owner.pid) == owner;
  }

  /**
   * Leaving removes the lock exactly when it may write the directory and the lock is its own, damaged, or not readable
   * to it: another owner's is spared if and only if it can be read or cannot be removed.
   */
  lemma ReleaseSparesAnothersLock(w: World, p: Proc)
    requires p in w.stages && w.stages[p].Inside?
    ensures var w1 := Apply(w, ReadOwn(p));
      Enabled(w1, Remove(p)) &&
      var w2 := Apply(w1, Remove(p));
      && w2.stages == w.stages[p := Idle]
      && (w.lock.Present? && w.lock.info.Some? ==>
            (w2.lock == Absent <==>
              MayWrite(w, p) && (!MayRead(w, p) ||
                                 (w.lock.info.value.pid == Some(p.pid) && w.lock.info.value.host == Some(p.host)))))
      && (w.lock.Absent? || (w.lock.info.None? && MayWrite(w, p)) ==> w2.lock == Absent)
      && (w2.lock != Absent ==> w2.lock == w.lock)
  {
    assert w.stages[p := Leaving(w.stages[p].since, Ours(w, p))][p := Idle] == w.stages[p := Idle];
  }

  /** How many more of its own steps an acquiring process can take. */
  function StepsLeft(s: Stage): nat {
    match s
    case Ready(_, again) => if again then 2 else 6
    case Blocked(_) => 4
    case Condemned(_) => 3
    case Opened(_, _) => 1
    case _ => 0
  }

  predicate Acquires(s: Step) {
    s.Create? || s.Write? || s.Read? || s.Unlink? || s.CreateWrite? || s.ReadUnlink?
  }

  /** The call neither spins nor waits: each of its steps brings it nearer to being inside or refused. */
  lemma AcquiringEnds(w: World, s: Step)
    requires Acquires(s) && Enabled(w, s)
    ensures StepsLeft(Apply(w, s).stages[s.p]) < StepsLeft(w.stages[s.p]) <= 6
    ensures StepsLeft(Apply(w, s).stages[s.p]) == 0 ==> Apply(w, s).stages[s.p].Inside? || Apply(w, s).stages[s.p].Idle?
    ensures forall q :: q in w.stages && q != s.p ==> Apply(w, s).stages[q] == w.stages[q]
  {
  }

  /** The unlink of a reclaim, taken on its own, is safe exactly while nobody holds the lock, or where it fails. */
  lemma UnlinkIsSafeIffUnheld(w: World, q: Proc)
    requires HoldersOwn(w) && q in w.stages && w.stages[q].Condemned?
    ensures HoldersOwn(Apply(w, Unlink(q))) <==> Unheld(w) || !MayWrite(w, q)
  {
    var w' := Apply(w, Unlink(q));
    forall p | p in w.stages && p != q ensures w'.stages[p] == w.stages[p] {}
    if !Unheld(w) && MayWrite(w, q) {
      var p :| p in w.stages && (w.stages[p].Inside? || w.stages[p].Leaving?);
      assert !Holds(w', p, w'.stages[p].since);
    }
  }

  // ---- each assumption is needed ----

  ghost predicate Reaches(w0: World, log: seq<Step>, w: World) {
    Run(w0, log) && After(w0, log) == w
  }

  lemma Begin(w0: World, ok: Step -> bool)
    ensures Reaches(w0, [], w0) && All(ok, [])
  {
  }

  /** Every step of the run is of this kind. */
  ghost predicate All(ok: Step -> bool, log: seq<Step>) {
    forall s :: s in log ==> ok(s)
  }

  lemma Take(w0: World, log: seq<Step>, w: World, s: Step, ok: Step -> bool) returns (log': seq<Step>, w': World)
    requires Reaches(w0, log, w) && Enabled(w, s) && All(ok, log) && ok(s)
    ensures w' == Apply(w, s) && Reaches(w0, log', w') && All(ok, log')
  {
    assert (log + [s])[..|log|] == log;
    log', w' := log + [s], Apply(w, s);
  }

  ghost predicate TwoInside(w: World, p: Proc, q: Proc) {
    p != q && p in w.stages && q in w.stages && w.stages[p].Inside? && w.stages[q].Inside?
  }

  predicate BySame(s: Step, user: string) {
    s.Spawn? ==> s.user == user
  }

  /** Named hosts, one user and no time passing: only atomicity is in question. */
  function ReadsApart(user: string): Step -> bool {
    (s: Step) => !s.Tick? && Named(s) && BySame(s, user) && !s.Create? && !s.Write?
  }

  function CreatesApart(user: string): Step -> bool {
    (s: Step) => !s.Tick? && Named(s) && BySame(s, user) && !s.Read? && !s.Unlink?
  }

  function Slowly(user: string): Step -> bool {
    (s: Step) => Atomic(s) && Named(s) && BySame(s, user)
  }

  function Namelessly(user: string): Step -> bool {
    (s: Step) => Atomic(s) && !s.Tick? && BySame(s, user)
  }

  function ByTwoUsers(): Step -> bool {
    (s: Step) => Atomic(s) && Named(s) && !s.Tick?
  }

  function AtOnce(user: string): Step -> bool {
    (s: Step) => Atomic(s) && Named(s) && !s.Tick? && BySame(s, user)
  }

  /** A user has rights over what is its own, and this directory is open to it. */
  predicate Owns(w: World, user: string) {
    w.rights.mayWrite(user) && w.rights.mayRead(user, user) && w.rights.maySignal(user, user)
  }

  /** A new process asks for the lock: inside when it is free, blocked otherwise. */
  lemma Arrive(w0: World, log: seq<Step>, w: World, p: Proc, user: string, ok: Step -> bool)
    returns (log': seq<Step>, w': World)
    requires Reaches(w0, log, w) && p !in w.stages && p.pid > 0 && w.rights.mayWrite(user)
    requires All(ok, log) && ok(Spawn(p, user)) && ok(Enter(p)) && ok(CreateWrite(p))
    ensures Reaches(w0, log', w') && All(ok, log')
    ensures var known := w.users[p := user];
      w' == if w.lock.Absent?
      then w.(lock := Present(w.nextId, Some(InfoOf(p, w.now)), user), nextId := w.nextId + 1, users := known,
              stages := w.stages[p := Inside(w.now)])
      else w.(stages := w.stages[p := Blocked(w.now)], users := known)
  {
    hide Reaches, All;
    log', w' := Take(w0, log, w, Spawn(p, user), ok);
    log', w' := Take(w0, log', w', Enter(p), ok);
    log', w' := Take(w0, log', w', CreateWrite(p), ok);
    assert w.stages[p := Idle][p := Ready(w.now, false)][p := w'.stages[p]] == w.stages[p := w'.stages[p]];
  }

  /** A holder whose own payload is in the lock leaves, taking the lock with it. */
  lemma Release(w0: World, log: seq<Step>, w: World, p: Proc, ok: Step -> bool) returns (log': seq<Step>, w': World)
    requires Reaches(w0, log, w) && p in w.stages && w.stages[p].Inside? && Holds(w, p, w.stages[p].since)
    requires MayWrite(w, p)
    requires All(ok, log) && ok(ReadOwn(p)) && ok(Remove(p))
    ensures Reaches(w0, log', w') && All(ok, log')
    ensures w' == w.(lock := Absent, stages := w.stages[p := Idle])
  {
    hide Reaches, All;
    log', w' := Take(w0, log, w, ReadOwn(p), ok);
    log', w' := Take(w0, log', w', Remove(p), ok);
    assert w.stages[p := Leaving(w.stages[p].since, true)][p := Idle] == w.stages[p := Idle];
  }

  /** A blocked process looks, finds no lock or a damaged one, and decides to remove it. */
  lemma Condemn(w0: World, log: seq<Step>, w: World, p: Proc, ok: Step -> bool) returns (log': seq<Step>, w': World)
    requires Reaches(w0, log, w) && p in w.stages && w.stages[p].Blocked?
    requires w.lock.Absent? || w.lock.info.None?
    requires All(ok, log) && ok(Read(p))
    ensures Reaches(w0, log', w') && All(ok, log')
    ensures w' == w.(stages := w.stages[p := Condemned(w.stages[p].since)])
  {
    hide Reaches, All;
    log', w' := Take(w0, log, w, Read(p), ok);
  }

  /** Retakes the lock with a second create, after `p` has unlinked what it found. */
  lemma Retake(w0: World, log: seq<Step>, w: World, p: Proc, ok: Step -> bool) returns (log': seq<Step>, w': World)
    requires Reaches(w0, log, w) && p in w.stages && w.stages[p].Condemned? && MayWrite(w, p)
    requires All(ok, log) && ok(Unlink(p)) && ok(CreateWrite(p))
    ensures Reaches(w0, log', w') && All(ok, log')
    ensures w' == w.(lock := Present(w.nextId, Some(InfoOf(p, w.stages[p].since)), UserOf(w, p)),
                     nextId := w.nextId + 1, stages := w.stages[p := Inside(w.stages[p].since)])
  {
    hide Reaches, All;
    log', w' := Take(w0, log, w, Unlink(p), ok);
    log', w' := Take(w0, log', w', CreateWrite(p), ok);
  }

  /** A blocked process reclaims a stale lock in one go. */
  lemma Reclaim(w0: World, log: seq<Step>, w: World, p: Proc, ok: Step -> bool) returns (log': seq<Step>, w': World)
    requires Reaches(w0, log, w) && p in w.stages && w.stages[p].Blocked?
    requires IsStale(w, p, ReadLock(w, p)) && MayWrite(w, p)
    requires All(ok, log) && ok(ReadUnlink(p)) && ok(CreateWrite(p))
    ensures Reaches(w0, log', w') && All(ok, log')
    ensures w' == w.(lock := Present(w.nextId, Some(InfoOf(p, w.stages[p].since)), UserOf(w, p)),
                     nextId := w.nextId + 1, stages := w.stages[p := Inside(w.stages[p].since)])
  {
    hide Reaches, All;
    log', w' := Take(w0, log, w, ReadUnlink(p), ok);
    log', w' := Take(w0, log', w', CreateWrite(p), ok);
  }

  /**
   * Without an atomic reclaim, two processes that both judged an unreadable lock can both end up inside: the second
   * unlinks the file the first has just created.
   */
  lemma TwoReclaimersBothEnter(p: Proc, q: Proc, user: string, w0: World) returns (log: seq<Step>, w: World)
    requires p != q && p.pid > 0 && q.pid > 0 && p.host != "" && q.host != ""
    requires Initial(w0) && Owns(w0, user) && w0.lock.Present? && w0.lock.info == None
    ensures Reaches(w0, log, w) && TwoInside(w, p, q)
    ensures All(ReadsApart(user), log)
  {
    hide Run, After, All, Reaches, Apply, Enabled;
    var ok := ReadsApart(user);
    log, w := [], w0;
    Begin(w0, ok);
    log, w := Arrive(w0, log, w, p, user, ok);
    log, w := Arrive(w0, log, w, q, user, ok);
    log, w := Condemn(w0, log, w, p, ok);
    log, w := Condemn(w0, log, w, q, ok);
    log, w := Retake(w0, log, w, p, ok);
    log, w := Retake(w0, log, w, q, ok);
  }

  /** A process that found the lock taken has it released behind its back before it looks, and condemns it. */
  lemma LookTooLate(p: Proc, q: Proc, user: string, w0: World) returns (log: seq<Step>, w: World)
    requires p != q && p.pid > 0 && q.pid > 0 && p.host != "" && q.host != ""
    requires Initial(w0) && Owns(w0, user) && w0.lock.Absent?
    ensures Reaches(w0, log, w) && All(ReadsApart(user), log)
    ensures w.lock.Absent? && w.stages == map[p := Idle, q := Condemned(w0.now)]
    ensures w.rights == w0.rights && UserOf(w, q) == user
  {
    hide Run, After, All, Reaches, Apply, Enabled;
    var ok := ReadsApart(user);
    log, w := [], w0;
    Begin(w0, ok);
    log, w := Arrive(w0, log, w, p, user, ok);
    log, w := Arrive(w0, log, w, q, user, ok);
    log, w := Release(w0, log, w, p, ok);
    log, w := Condemn(w0, log, w, q, ok);
  }

  /** A reader that finds the lock just released condemns whatever is created after it looked. */
  lemma LateReaderEvictsNewHolder(p: Proc, q: Proc, r: Proc, user: string, w0: World) returns (log: seq<Step>, w: World)
    requires p != q && p != r && q != r && p.pid > 0 && q.pid > 0 && r.pid > 0
    requires p.host != "" && q.host != "" && r.host != ""
    requires Initial(w0) && Owns(w0, user) && w0.lock.Absent?
    ensures Reaches(w0, log, w) && TwoInside(w, q, r)
    ensures All(ReadsApart(user), log)
  {
    hide Run, After, All, Reaches, Apply, Enabled;
    var ok := ReadsApart(user);
    log, w := LookTooLate(p, q, user, w0);
    log, w := Arrive(w0, log, w, r, user, ok);
    log, w := Retake(w0, log, w, q, ok);
  }

  /** A lock file between its creation and its payload. */
  lemma CreateEmpty(p: Proc, user: string, w0: World) returns (log: seq<Step>, w: World)
    requires p.pid > 0 && p.host != "" && Initial(w0) && Owns(w0, user) && w0.lock.Absent?
    ensures Reaches(w0, log, w) && All(CreatesApart(user), log)
    ensures w.lock.Present? && w.lock.info.None? && w.lock.id < w.nextId && w.rights == w0.rights
    ensures w.stages == map[p := Opened(w0.now, w.lock.id)] && w.users == w0.users[p := user]
  {
    hide Run, After, All, Reaches;
    var ok := CreatesApart(user);
    log, w := [], w0;
    Begin(w0, ok);
    log, w := Take(w0, log, w, Spawn(p, user), ok);
    log, w := Take(w0, log, w, Enter(p), ok);
    log, w := Take(w0, log, w, Create(p), ok);
  }

  /** Without an atomic create-and-write, a lock caught empty counts as stale while its creator walks in. */
  lemma EmptyLockIsStolen(p: Proc, q: Proc, user: string, w0: World) returns (log: seq<Step>, w: World)
    requires p != q && p.pid > 0 && q.pid > 0 && p.host != "" && q.host != ""
    requires Initial(w0) && Owns(w0, user) && w0.lock.Absent?
    ensures Reaches(w0, log, w) && TwoInside(w, p, q)
    ensures All(CreatesApart(user), log)
  {
    hide Run, After, All, Reaches;
    var ok := CreatesApart(user);
    log, w := CreateEmpty(p, user, w0);
    log, w := Arrive(w0, log, w, q, user, ok);
    log, w := Reclaim(w0, log, w, q, ok);
    log, w := Take(w0, log, w, Write(p), ok);
  }

  /** A hold that outlives the ceiling is taken away from its live owner. */
  lemma OldHolderIsEvicted(p: Proc, q: Proc, user: string, w0: World) returns (log: seq<Step>, w: World)
    requires p != q && p.pid > 0 && q.pid > 0 && p.host != "" && q.host != ""
    requires Initial(w0) && Owns(w0, user) && w0.lock.Absent?
    ensures Reaches(w0, log, w) && TwoInside(w, p, q)
    ensures All(Slowly(user), log)
  {
    hide Run, After, All, Reaches;
    var ok := Slowly(user);
    log, w := [], w0;
    Begin(w0, ok);
    log, w := Arrive(w0, log, w, p, user, ok);
    log, w := Take(w0, log, w, Tick(MAX_AGE + 1.0), ok);
    log, w := Arrive(w0, log, w, q, user, ok);
    log, w := Reclaim(w0, log, w, q, ok);
  }

  /** A host that cannot tell its own name writes a lock that every other host takes for a local one. */
  lemma NamelessHostIsEvicted(p: Proc, q: Proc, user: string, w0: World) returns (log: seq<Step>, w: World)
    requires p.host == "" && q.host != "" && p.pid > 0 && q.pid > 0 && p.pid != q.pid
    requires Initial(w0) && Owns(w0, user) && w0.lock.Absent?
    ensures Reaches(w0, log, w) && TwoInside(w, p, q)
    ensures All(Namelessly(user), log)
  {
    hide Run, After, All, Reaches;
    var ok := Namelessly(user);
    log, w := [], w0;
    Begin(w0, ok);
    log, w := Arrive(w0, log, w, p, user, ok);
    log, w := Arrive(w0, log, w, q, user, ok);
    log, w := Reclaim(w0, log, w, q, ok);
  }

  /**
   * A live lock of a user whose files the next one may not read, or whose processes it may not signal on their common
   * host, passes for an abandoned one.
   */
  lemma OtherUsersLockIsStolen(p: Proc, q: Proc, a: string, b: string, w0: World) returns (log: seq<Step>, w: World)
    requires p != q && p.pid > 0 && q.pid > 0 && p.host != "" && q.host != ""
    requires Initial(w0) && w0.lock.Absent? && w0.rights.mayWrite(a) && w0.rights.mayWrite(b)
    requires !w0.rights.mayRead(b, a) || (p.host == q.host && !w0.rights.maySignal(b, a))
    ensures Reaches(w0, log, w) && TwoInside(w, p, q)
    ensures All(ByTwoUsers(), log)
  {
    hide Run, After, All, Reaches;
    var ok := ByTwoUsers();
    log, w := [], w0;
    Begin(w0, ok);
    log, w := Arrive(w0, log, w, p, a, ok);
    log, w := Arrive(w0, log, w, q, b, ok);
    assert Proc(q.host, p.pid) in w.stages ==> Proc(q.host, p.pid) == p || Proc(q.host, p.pid) == q;
    log, w := Reclaim(w0, log, w, q, ok);
  }

  /** Where the lock cannot be created the call goes on without it, and does so for everyone. */
  lemma UnwritableDirectoryIsUnlocked(p: Proc, q: Proc, user: string, w0: World) returns (log: seq<Step>, w: World)
    requires p != q && p.pid > 0 && q.pid > 0 && p.host != "" && q.host != ""
    requires Initial(w0) && w0.lock.Absent? && !w0.rights.mayWrite(user)
    ensures Reaches(w0, log, w) && TwoInside(w, p, q)
    ensures All(AtOnce(user), log)
  {
    hide Run, After, All, Reaches;
    var ok := AtOnce(user);
    log, w := [], w0;
    Begin(w0, ok);
    log, w := Take(w0, log, w, Spawn(p, user), ok);
    log, w := Take(w0, log, w, Enter(p), ok);
    log, w := Take(w0, log, w, CreateWrite(p), ok);
    log, w := Take(w0, log, w, Spawn(q, user), ok);
    log, w := Take(w0, log, w, Enter(q), ok);
    log, w := Take(w0, log, w, CreateWrite(q), ok);
  }
}
